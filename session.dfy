/**
  The component's state as a value, one function per event handler, and the run-level
  theorems. `Component.IkonhausAR` is the same state held in mutable fields; each of its
  methods is proved to move its fields exactly as the matching function here says.
 */
module Session {
  import opened Optional
  import opened Catalog
  import opened Sizing
  import opened Placement

  /** The screen shown: file upload, preview with the start button, or the live camera view. */
  datatype Step = Upload | Preview | Camera

  /** An uploaded image, as the data URL the browser's file reader produced. */
  type DataUrl = string

  /** A capture track of the device camera, identified by object identity. */
  type Track = nat

  /** A camera stream handed out by the browser: its tracks. */
  datatype Stream = Stream(tracks: seq<Track>)

  function TrackSet(stream: Stream): set<Track> {
    set t | t in stream.tracks
  }

  /** JavaScript truthiness of a nullable data URL: both null and the empty string are falsy. */
  predicate Truthy(img: Option<DataUrl>) {
    img.Some? && img.value != ""
  }

  /**
    The component's state. The first eight fields are its React state; `stream` is
    `streamRef.current`. The last two describe the world outside the component: the camera
    tracks still capturing, and the camera requests that have been scheduled and not yet settled.
   */
  datatype State = State(
    step: Step,
    portraitImage: Option<DataUrl>,
    landscapeImage: Option<DataUrl>,
    selectedSize: Size,
    artworkPlaced: bool,
    artworkPosition: Point,
    artworkScale: real,
    cameraReady: bool,
    stream: Option<Stream>,
    liveTracks: set<Track>,
    pendingAcquisitions: nat)

  /** The tracks of the stream the component holds. */
  function HeldTracks(s: State): set<Track> {
    if s.stream.Some? then TrackSet(s.stream.value) else {}
  }

  /** Tracks that are still capturing but that the component no longer holds: nothing can stop them. */
  function LeakedTracks(s: State): set<Track> {
    s.liveTracks - HeldTracks(s)
  }

  /** The state on first render. */
  function Initial(): State {
    State(Upload, None, None, DefaultSize, false, Point(50.0, 50.0), DefaultZoom, false, None, {}, 0)
  }

  // ----- Event handlers -----

  /**
    `handleImageUpload` once the file reader has delivered `result` (`None` when no file was
    chosen): a slot named "portrait" gets the portrait image, any other slot name the landscape one.
   */
  function HandleImageUpload(s: State, slot: string, result: Option<DataUrl>): State {
    if result.None? then s
    else if slot == "portrait" then s.(portraitImage := result)
    else s.(landscapeImage := result)
  }

  /** The continue button is enabled only when both slots hold an image. */
  predicate CanContinue(s: State) {
    Truthy(s.portraitImage) && Truthy(s.landscapeImage)
  }

  /** Pressing "Continue to AR"; a press on the disabled button does nothing. */
  function ContinueToAR(s: State): State {
    if CanContinue(s) then s.(step := Preview) else s
  }

  /** "Change Artwork" on the preview screen. */
  function ChangeArtwork(s: State): State {
    s.(step := Upload)
  }

  /**
    `startCamera` up to the scheduled request: without camera support nothing changes;
    otherwise the camera view is shown, not ready, and one more request is under way.
   */
  function StartCamera(s: State, cameraSupported: bool): State {
    if !cameraSupported then s
    else s.(step := Camera, cameraReady := false, pendingAcquisitions := s.pendingAcquisitions + 1)
  }

  /**
    A camera request succeeds with `stream`: its tracks start capturing, and the stream is
    stored only when the video element is mounted, which is the case exactly on the camera step.
   */
  function OnStreamAcquired(s: State, stream: Stream): State {
    var settled := s.(pendingAcquisitions := if s.pendingAcquisitions > 0 then s.pendingAcquisitions - 1 else 0,
                      liveTracks := s.liveTracks + TrackSet(stream));
    if s.step == Camera then settled.(stream := Some(stream)) else settled
  }

  /** A camera request fails: back to the preview screen. */
  function OnAcquisitionFailed(s: State): State {
    s.(step := Preview, pendingAcquisitions := if s.pendingAcquisitions > 0 then s.pendingAcquisitions - 1 else 0)
  }

  /** The video element reports that playback started. */
  function OnPlaybackStarted(s: State): State {
    s.(cameraReady := true)
  }

  /** `stopCamera`, the exit button. */
  function StopCamera(s: State): (r: State)
    ensures r.stream.None? && !r.cameraReady && r.step == Preview && !r.artworkPlaced
    ensures HeldTracks(s) !! r.liveTracks && LeakedTracks(r) == LeakedTracks(s)
    ensures r.(stream := s.stream, liveTracks := s.liveTracks, cameraReady := s.cameraReady, step := s.step, artworkPlaced := s.artworkPlaced) == s
  {
    s.(stream := None, liveTracks := s.liveTracks - HeldTracks(s),
       cameraReady := false, step := Preview, artworkPlaced := false)
  }

  /** `placeArtwork`: a tap on the camera view once it is ready anchors the overlay there. */
  function PlaceArtwork(s: State, e: PointerEvent, rect: Rect): State
    requires s.step == Camera && s.cameraReady ==> NonEmpty(rect)
  {
    if s.step != Camera || !s.cameraReady then s
    else s.(artworkPosition := Normalize(TapPoint(e), rect), artworkPlaced := true)
  }

  /** A size button: selects the size and removes the overlay until the next tap. */
  function SelectSize(s: State, size: Size): State {
    s.(selectedSize := size, artworkPlaced := false)
  }

  function PressZoomOut(s: State): State {
    s.(artworkScale := ZoomOut(s.artworkScale))
  }

  function PressZoomIn(s: State): State {
    s.(artworkScale := ZoomIn(s.artworkScale))
  }

  // ----- Derived values used when rendering -----

  /** `currentImage`: the slot matching the selected size's orientation. */
  function CurrentImage(s: State): Option<DataUrl> {
    if s.selectedSize.orientation == Portrait then s.portraitImage else s.landscapeImage
  }

  /** `getArtworkDimensions` for the current size and zoom. */
  function CurrentDimensions(s: State): Dimensions {
    ArtworkDimensions(s.selectedSize, s.artworkScale)
  }

  /** The overlay is drawn on the camera view when the artwork is placed and the current image is present. */
  predicate OverlayVisible(s: State) {
    s.step == Camera && s.artworkPlaced && Truthy(CurrentImage(s))
  }

  // ----- Events and runs -----

  datatype Event =
    | FileLoaded(slot: string, result: Option<DataUrl>)
    | ContinuePressed
    | ChangeArtworkPressed
    | StartPressed(cameraSupported: bool)
    | StreamAcquired(stream: Stream)
    | AcquisitionFailed
    | PlaybackStarted
    | ExitPressed
    | Tap(event: PointerEvent, rect: Rect)
    | SizePressed(size: Size)
    | ZoomOutPressed
    | ZoomInPressed

  /**
    When an event can happen: a control fires only while it is rendered, a camera request
    settles only while one is under way (with tracks not already capturing), and playback
    starts only on the camera view with a stream attached to the video element.
   */
  predicate Enabled(s: State, ev: Event) {
    match ev
    case FileLoaded(_, _) => s.step == Upload
    case ContinuePressed => s.step == Upload
    case ChangeArtworkPressed => s.step == Preview
    case StartPressed(_) => s.step == Preview
    case StreamAcquired(stream) => s.pendingAcquisitions > 0 && TrackSet(stream) !! s.liveTracks
    case AcquisitionFailed => s.pendingAcquisitions > 0
    case PlaybackStarted => s.step == Camera && s.stream.Some?
    case ExitPressed => s.step == Camera
    case Tap(_, rect) => s.step == Camera && (s.cameraReady ==> NonEmpty(rect))
    case SizePressed(size) => s.step == Camera && size in SIZES
    case ZoomOutPressed => s.step == Camera && s.artworkPlaced
    case ZoomInPressed => s.step == Camera && s.artworkPlaced
  }

  function Apply(s: State, ev: Event): State
    requires Enabled(s, ev)
  {
    match ev
    case FileLoaded(slot, result) => HandleImageUpload(s, slot, result)
    case ContinuePressed => ContinueToAR(s)
    case ChangeArtworkPressed => ChangeArtwork(s)
    case StartPressed(supported) => StartCamera(s, supported)
    case StreamAcquired(stream) => OnStreamAcquired(s, stream)
    case AcquisitionFailed => OnAcquisitionFailed(s)
    case PlaybackStarted => OnPlaybackStarted(s)
    case ExitPressed => StopCamera(s)
    case Tap(e, rect) => PlaceArtwork(s, e, rect)
    case SizePressed(size) => SelectSize(s, size)
    case ZoomOutPressed => PressZoomOut(s)
    case ZoomInPressed => PressZoomIn(s)
  }

  /** Every event of the sequence is enabled when it arrives. */
  predicate Possible(s: State, evs: seq<Event>)
    decreases |evs|
  {
    evs == [] || (Enabled(s, evs[0]) && Possible(Apply(s, evs[0]), evs[1..]))
  }

  function Run(s: State, evs: seq<Event>): State
    requires Possible(s, evs)
    decreases |evs|
  {
    if evs == [] then s else Run(Apply(s, evs[0]), evs[1..])
  }

  /** A second camera request is started while an earlier one is still under way. */
  predicate Overlapping(s: State, ev: Event) {
    ev.StartPressed? && ev.cameraSupported && s.pendingAcquisitions > 0
  }

  /** No camera request is started while another is under way. */
  predicate Serialized(s: State, evs: seq<Event>)
    requires Possible(s, evs)
    decreases |evs|
  {
    evs == [] || (!Overlapping(s, evs[0]) && Serialized(Apply(s, evs[0]), evs[1..]))
  }

  /**
    The session invariant: a catalog size and an in-range zoom; placement only on a ready
    camera view; readiness only with a stream; a held stream only on the camera view and still
    capturing; and while a request is under way, at most one and no stream held.
   */
  predicate Inv(s: State) {
    && s.selectedSize in SIZES
    && InZoomRange(s.artworkScale)
    && s.pendingAcquisitions <= 1
    && (s.artworkPlaced ==> s.step == Camera && s.cameraReady)
    && (s.cameraReady ==> s.stream.Some?)
    && (s.stream.Some? ==> s.step == Camera && TrackSet(s.stream.value) <= s.liveTracks)
    && (s.pendingAcquisitions > 0 ==> s.stream.None?)
  }
}
