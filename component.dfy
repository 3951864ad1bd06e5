/**
  The `IkonhausAR` component of pages/index.js as an object: its React state and
  `streamRef.current` are mutable fields, and each event handler is a method that updates
  them in place. Every method is proved to change the fields exactly as the matching
  function of `Session` says, so the properties proved there hold of the component.
 */
module Component {
  import opened Optional
  import opened Catalog
  import opened Sizing
  import opened Placement
  import S = Session
  import P = SessionProps

  /**
    A handler run on a state satisfying the session invariant, for an event that can occur
    there and is not a camera start during a pending request, leaves the invariant holding.
   */
  ghost predicate InvKept(before: S.State, ev: S.Event, after: S.State) {
    S.Inv(before) && S.Enabled(before, ev) && !S.Overlapping(before, ev) ==> S.Inv(after)
  }

  lemma StepKeepsInv(before: S.State, ev: S.Event, after: S.State)
    requires S.Enabled(before, ev) ==> after == S.Apply(before, ev)
    ensures InvKept(before, ev, after)
  {
    if S.Inv(before) && S.Enabled(before, ev) && !S.Overlapping(before, ev) {
      P.ApplyPreservesInv(before, ev);
    }
  }

  class IkonhausAR {
    var step: S.Step
    var portraitImage: Option<S.DataUrl>
    var landscapeImage: Option<S.DataUrl>
    var selectedSize: Size
    var artworkPlaced: bool
    var artworkPosition: Point
    var artworkScale: real
    var cameraReady: bool
    var streamRef: Option<S.Stream>
    /** Device side: the camera tracks still capturing. */
    var liveTracks: set<S.Track>
    /** Camera requests scheduled by `startCamera` and not yet settled. */
    var pendingAcquisitions: nat

    /** The fields as one state value. */
    function Snapshot(): S.State
      reads this
    {
      S.State(step, portraitImage, landscapeImage, selectedSize, artworkPlaced, artworkPosition,
              artworkScale, cameraReady, streamRef, liveTracks, pendingAcquisitions)
    }

    /** The first render: upload screen, no images, the first size, centred anchor, zoom 1. */
    constructor ()
      ensures Snapshot() == S.Initial()
      ensures S.Inv(Snapshot())
    {
      step := S.Upload;
      portraitImage := None;
      landscapeImage := None;
      selectedSize := DefaultSize;
      artworkPlaced := false;
      artworkPosition := Point(50.0, 50.0);
      artworkScale := DefaultZoom;
      cameraReady := false;
      streamRef := None;
      liveTracks := {};
      pendingAcquisitions := 0;
      CatalogShape();
    }

    /** `handleImageUpload` with the file reader's result (`None`: no file chosen). */
    method HandleImageUpload(slot: string, result: Option<S.DataUrl>)
      modifies this
      ensures Snapshot() == S.HandleImageUpload(old(Snapshot()), slot, result)
      ensures InvKept(old(Snapshot()), S.FileLoaded(slot, result), Snapshot())
    {
      if result.Some? {
        if slot == "portrait" {
          portraitImage := result;
        } else {
          landscapeImage := result;
        }
      }
      StepKeepsInv(old(Snapshot()), S.FileLoaded(slot, result), Snapshot());
    }

    /** The "Continue to AR" button, disabled unless both images are present. */
    method ContinueToAR()
      modifies this
      ensures Snapshot() == S.ContinueToAR(old(Snapshot()))
      ensures InvKept(old(Snapshot()), S.ContinuePressed, Snapshot())
    {
      var enabled := portraitImage.Some? && portraitImage.value != "" &&
                     landscapeImage.Some? && landscapeImage.value != "";
      if enabled {
        step := S.Preview;
      }
      StepKeepsInv(old(Snapshot()), S.ContinuePressed, Snapshot());
    }

    /** The "Change Artwork" button. */
    method ChangeArtwork()
      modifies this
      ensures Snapshot() == S.ChangeArtwork(old(Snapshot()))
      ensures InvKept(old(Snapshot()), S.ChangeArtworkPressed, Snapshot())
    {
      step := S.Upload;
      StepKeepsInv(old(Snapshot()), S.ChangeArtworkPressed, Snapshot());
    }

    /** `startCamera` up to the scheduled request; `cameraSupported` is the browser's capability check. */
    method StartCamera(cameraSupported: bool)
      modifies this
      ensures Snapshot() == S.StartCamera(old(Snapshot()), cameraSupported)
      ensures InvKept(old(Snapshot()), S.StartPressed(cameraSupported), Snapshot())
    {
      if cameraSupported {
        step := S.Camera;
        cameraReady := false;
        pendingAcquisitions := pendingAcquisitions + 1;
      }
      StepKeepsInv(old(Snapshot()), S.StartPressed(cameraSupported), Snapshot());
    }

    /** The scheduled request succeeds; the video element is mounted only on the camera step. */
    method OnStreamAcquired(stream: S.Stream)
      modifies this
      ensures Snapshot() == S.OnStreamAcquired(old(Snapshot()), stream)
      ensures InvKept(old(Snapshot()), S.StreamAcquired(stream), Snapshot())
    {
      if pendingAcquisitions > 0 {
        pendingAcquisitions := pendingAcquisitions - 1;
      }
      liveTracks := liveTracks + S.TrackSet(stream);
      var videoMounted := step == S.Camera;
      if videoMounted {
        streamRef := Some(stream);
      }
      StepKeepsInv(old(Snapshot()), S.StreamAcquired(stream), Snapshot());
    }

    /** The scheduled request throws. */
    method OnAcquisitionFailed()
      modifies this
      ensures Snapshot() == S.OnAcquisitionFailed(old(Snapshot()))
      ensures InvKept(old(Snapshot()), S.AcquisitionFailed, Snapshot())
    {
      if pendingAcquisitions > 0 {
        pendingAcquisitions := pendingAcquisitions - 1;
      }
      step := S.Preview;
      StepKeepsInv(old(Snapshot()), S.AcquisitionFailed, Snapshot());
    }

    /** `video.play()` resolved. */
    method OnPlaybackStarted()
      modifies this
      ensures Snapshot() == S.OnPlaybackStarted(old(Snapshot()))
      ensures InvKept(old(Snapshot()), S.PlaybackStarted, Snapshot())
    {
      cameraReady := true;
      StepKeepsInv(old(Snapshot()), S.PlaybackStarted, Snapshot());
    }

    /** `stopCamera`: stop every track of the held stream, drop it, and go back to the preview. */
    method StopCamera()
      modifies this
      ensures Snapshot() == S.StopCamera(old(Snapshot()))
      ensures InvKept(old(Snapshot()), S.ExitPressed, Snapshot())
    {
      if streamRef.Some? {
        var tracks := streamRef.value.tracks;
        var i := 0;
        while i < |tracks|
          modifies this`liveTracks
          invariant 0 <= i <= |tracks|
          invariant liveTracks == old(liveTracks) - (set j | 0 <= j < i :: tracks[j])
        {
          liveTracks := liveTracks - {tracks[i]};
          i := i + 1;
        }
        assert (set j | 0 <= j < |tracks| :: tracks[j]) == S.TrackSet(streamRef.value) by {
          forall t | t in S.TrackSet(streamRef.value)
            ensures t in (set j | 0 <= j < |tracks| :: tracks[j])
          {
            var j :| 0 <= j < |tracks| && tracks[j] == t;
          }
        }
        streamRef := None;
      }
      cameraReady := false;
      step := S.Preview;
      artworkPlaced := false;
      StepKeepsInv(old(Snapshot()), S.ExitPressed, Snapshot());
    }

    /** `placeArtwork` for a tap event, given the container's bounding rectangle. */
    method PlaceArtwork(e: PointerEvent, rect: Rect)
      requires step == S.Camera && cameraReady ==> NonEmpty(rect)
      modifies this
      ensures Snapshot() == S.PlaceArtwork(old(Snapshot()), e, rect)
      ensures InvKept(old(Snapshot()), S.Tap(e, rect), Snapshot())
    {
      if step == S.Camera && cameraReady {
        var p := TapPoint(e);
        artworkPosition := Normalize(p, rect);
        artworkPlaced := true;
      }
      StepKeepsInv(old(Snapshot()), S.Tap(e, rect), Snapshot());
    }

    /** A size button. */
    method SelectSize(size: Size)
      modifies this
      ensures Snapshot() == S.SelectSize(old(Snapshot()), size)
      ensures InvKept(old(Snapshot()), S.SizePressed(size), Snapshot())
    {
      selectedSize := size;
      artworkPlaced := false;
      StepKeepsInv(old(Snapshot()), S.SizePressed(size), Snapshot());
    }

    /** The zoom-out button. */
    method ZoomOut()
      modifies this
      ensures Snapshot() == S.PressZoomOut(old(Snapshot()))
      ensures InvKept(old(Snapshot()), S.ZoomOutPressed, Snapshot())
    {
      artworkScale := Sizing.ZoomOut(artworkScale);
      StepKeepsInv(old(Snapshot()), S.ZoomOutPressed, Snapshot());
    }

    /** The zoom-in button. */
    method ZoomIn()
      modifies this
      ensures Snapshot() == S.PressZoomIn(old(Snapshot()))
      ensures InvKept(old(Snapshot()), S.ZoomInPressed, Snapshot())
    {
      artworkScale := Sizing.ZoomIn(artworkScale);
      StepKeepsInv(old(Snapshot()), S.ZoomInPressed, Snapshot());
    }
  }
}
