# Ikonhaus AR session model

A Dafny model of the state logic inside the `IkonhausAR` React component
(`pages/index.js`). The component previews a piece of artwork on a wall through
the phone camera. The user uploads a portrait and a landscape image, continues
to a preview screen and starts the camera. Once the video plays, a tap anchors
the artwork overlay. The overlay is drawn at true size: a fixed 250/36 pixels
per inch, times a zoom between 0.5 and 2.

The model has six parts:

- `Catalog`: the three print sizes (`SIZES`).
- `Sizing`: the zoom buttons and the inch-to-pixel conversion (`getArtworkDimensions`).
- `Placement`: which coordinate of a click or touch-end is used, and how it becomes
  a percentage of the container (`placeArtwork`).
- `Session`: the component's state as a value, with one function per event handler.
  It also has the derived values used when rendering (`currentImage`, the overlay
  condition), an event type with the conditions under which each event can occur,
  runs of events, and the session invariant.
- `SessionProps`: the properties of the handlers, one event at a time and over runs.
- `Component`: the component as a class. Its fields are the React state and
  `streamRef.current`. Its methods are the handlers, updating those fields in place.
  Each method is proved to change the fields exactly as the matching `Session` function
  says (`ZoomOut` and `ZoomIn` match `PressZoomOut` and `PressZoomIn`). Each method also keeps
  the session invariant whenever its event can occur and is not a camera start during a
  pending request. `StopCamera` stops the held stream's tracks one at a time, as the
  source's `forEach` does.

The asynchronous camera outcomes are explicit events:

- the request succeeds (`StreamAcquired`);
- the request fails (`AcquisitionFailed`);
- playback starts (`PlaybackStarted`).

Two pieces of state lie outside the component, and the model keeps them beside its
fields: the camera tracks still capturing, and the number of camera requests that
were started and have not yet settled. The video element is rendered only on the
camera screen, so `videoRef.current` is non-null exactly on the camera step.

Two behaviours of the source follow from this, and both are proved:

- Exit before a stream arrives leaks it. If the user exits before the camera request
  settles, the stream arrives after the video element is gone. It is neither stored
  nor stopped (`pages/index.js:67`), and no later event can stop its tracks
  (`ExitBeforeAcquisitionLeaks`, `LeakPersistsOverRun`).
- "Placed only on the camera view" can fail. The invariant holds in every session in
  which no camera start happens while an earlier request is still pending
  (`PlacedOnlyOnCamera`). The zoom range and the catalog size hold in every session
  (`ZoomAlwaysInRange`). Overlapping requests break it
  (`OverlappingRequestsLeavePlacement`). The sequence is: start, exit, start again;
  the first request succeeds, playback starts, the user taps, and then the second
  request fails. The preview screen then shows with the artwork placed and a stream
  still held. Pressing start once more shows the camera view with the artwork already
  placed while the camera is not ready (`OverlayBeforeReady`).

The catalog's landscape entry is recorded as 24 wide by 36 high. Its overlay is
therefore drawn taller than it is wide (`EveryEntryTallerThanWide`).

## Model

| member | source | states |
|---|---|---|
| Catalog.CatalogShape | pages/index.js:4-8 | the catalog has three entries with distinct ids and positive sizes: two portrait, then one landscape; the default is the 16x20 portrait entry |
| Catalog.EveryEntryTallerThanWide | pages/index.js:4-8 | every entry, the landscape one included, is taller than wide; 24x36 is the only landscape entry |
| Sizing.ZoomOut | pages/index.js:494 | zoom-out never goes below 0.5; it lowers the scale or lands on 0.5; it keeps an in-range scale in range |
| Sizing.ZoomIn | pages/index.js:512 | zoom-in never goes above 2; it raises the scale or lands on 2; it keeps an in-range scale in range |
| Sizing.ZoomOutTimesClamps | pages/index.js:494 | n zoom-out presses give max(0.5, s - 0.1 n) |
| Sizing.ZoomInTimesClamps | pages/index.js:512 | n zoom-in presses give min(2, s + 0.1 n) |
| Sizing.ZoomSaturates | pages/index.js:494-512 | a press at a bound changes nothing; from any in-range scale, 15 or more presses reach the bound |
| Sizing.ZoomInverse | pages/index.js:494-512 | away from the bounds, zoom-in undoes zoom-out and the reverse |
| Sizing.ArtworkDimensions | pages/index.js:156-161 | pixel size is positive for a positive size and zoom; it has the size's aspect ratio; dividing by 250/36 times the zoom gives back the inches |
| Sizing.DimensionsPreserveAspect | pages/index.js:156-161 | for catalog sizes and in-range zoom, both sides are positive, width/height equals the inches ratio, and the pixel size is proportional to the zoom |
| Sizing.ReferenceLength | pages/index.js:157 | a 36-inch side is 250 px at zoom 1 |
| Placement.TapPointOrder | pages/index.js:135-145 | the coordinate comes from the first changed touch of a touch-end, else the first active touch, else the event's client fields; a touch-end with no active touches still uses its changed touch |
| Placement.Normalize | pages/index.js:147-149 | the percentage position maps back to the tap point exactly |
| Placement.NormalizeRange | pages/index.js:147-149 | the tap lies inside the container if and only if both percentages lie in [0, 100] |
| Placement.NormalizeInjective | pages/index.js:147-149 | different taps give different positions |
| Placement.NormalizeExample | pages/index.js:147-149 | (300, 400) in a 1000 x 800 container at the origin gives (30, 50) |
| Session.StopCamera | pages/index.js:114-128 | exit leaves no stream held, camera not ready, the preview step and nothing placed; the held tracks are stopped; the set of leaked tracks is unchanged; no other field changes |
| SessionProps.UploadWritesOneSlot | pages/index.js:25-38 | with no file nothing changes; "portrait" writes only the portrait slot; any other slot name writes only the landscape slot; nothing else changes |
| SessionProps.ContinueGuard | pages/index.js:235-237 | from the upload step, continue reaches the preview if and only if both images are present; otherwise nothing changes |
| SessionProps.BothUploadsEnableContinue | pages/index.js:25-38 | after both images are uploaded, in either order, continue is enabled; after only one of them, either one, it is not |
| SessionProps.StartCameraEffect | pages/index.js:40-48 | without camera support nothing changes; with it, the camera step, not ready, and one more pending request; nothing is placed when starting from a consistent preview; no other field changes |
| SessionProps.FailureReturnsToPreview | pages/index.js:106-110 | a failed request always lands on the preview step and touches no stream; from a state satisfying the invariant with a request pending, nothing was placed or ready; with a request pending, the pending count drops by one; no other field changes |
| SessionProps.ReadyOnlyAfterPlayback | pages/index.js:81-104 | the camera becomes ready only through the playback notification |
| SessionProps.StopCameraIdempotent | pages/index.js:114-128 | exiting twice gives the same state as exiting once; exit stops exactly the held tracks |
| SessionProps.LeakPersists | pages/index.js:114-121 | no event stops a track that is capturing but not held |
| SessionProps.LeakPersistsOverRun | pages/index.js:114-121 | over any run, every leaked track stays leaked |
| SessionProps.ExitBeforeAcquisitionLeaks | pages/index.js:64-71 | start, exit, then the stream arrives: this is a serialized run, and the stream's tracks stay capturing and unheld for the rest of the session |
| SessionProps.PlaceArtworkEffect | pages/index.js:130-154 | a tap changes nothing unless the step is camera and the camera is ready; otherwise it places the artwork at the tap point, changes nothing else, and the last tap wins |
| SessionProps.PlacementExample | pages/index.js:130-154 | with the camera ready, a click at (300, 400) in a 1000 x 800 container anchors at (30, 50) |
| SessionProps.SizeChangeHidesOverlay | pages/index.js:471-474 | choosing a size clears the placement, so the overlay and the controls shown only while placed disappear; only the size and the placement flag change; on a ready camera view, the next tap shows the overlay again if and only if the image for the new orientation is present |
| SessionProps.CurrentImageByOrientation | pages/index.js:164 | the two portrait sizes show the portrait image, and 24x36 shows the landscape image |
| SessionProps.ZoomKeepsRange | pages/index.js:494-512 | the zoom buttons keep the scale in [0.5, 2] and change nothing else |
| SessionProps.InitialInv | pages/index.js:11-18 | the initial state satisfies the session invariant |
| SessionProps.ApplyPreservesInv | pages/index.js:25-154 | every enabled event except a camera start during a pending request keeps the invariant |
| SessionProps.SerializedRunsKeepInv | pages/index.js:25-154 | the invariant holds after every serialized run |
| SessionProps.PlacedOnlyOnCamera | pages/index.js:375 | in serialized sessions, the artwork is placed only on the ready camera view, the overlay is drawn only when the camera is ready, and a stream is held only on the camera step |
| SessionProps.ApplyKeepsSizeAndZoom | pages/index.js:471-512 | every event that can occur keeps the size in the catalog and the zoom in [0.5, 2] |
| SessionProps.RunsKeepSizeAndZoom | pages/index.js:471-512 | over any possible run, the size stays in the catalog and the zoom in [0.5, 2] |
| SessionProps.ZoomAlwaysInRange | pages/index.js:17 | starting from zoom 1, in every session, with overlapping requests or not, the zoom stays in [0.5, 2] and the size is a catalog entry |
| SessionProps.CurrentDimensionsShape | pages/index.js:163 | in every session the overlay's pixel width and height are positive and their ratio is the selected size's width/height ratio |
| SessionProps.OverlayBeforeReady | pages/index.js:47-48 | after the overlapping run, start again shows the camera view, not ready, with the artwork placed; the overlay is drawn if and only if the current image is present |
| SessionProps.OverlappingRequestsLeavePlacement | pages/index.js:106-110 | with overlapping requests, a reachable run ends on the preview step with the artwork placed and a stream held |
| Component.IkonhausAR.constructor | pages/index.js:11-18 | the first render: upload step, no images, the first size, anchor (50, 50), zoom 1, camera not ready; the invariant holds |
| Component.IkonhausAR.HandleImageUpload | pages/index.js:25-38 | fields change as `Session.HandleImageUpload` says; the invariant is kept |
| Component.IkonhausAR.ContinueToAR | pages/index.js:235-237 | fields change as `Session.ContinueToAR` says; the invariant is kept |
| Component.IkonhausAR.ChangeArtwork | pages/index.js:295-296 | fields change as `Session.ChangeArtwork` says; the invariant is kept |
| Component.IkonhausAR.StartCamera | pages/index.js:40-48 | fields change as `Session.StartCamera` says; the invariant is kept |
| Component.IkonhausAR.OnStreamAcquired | pages/index.js:64-71 | fields change as `Session.OnStreamAcquired` says: the stream is stored only when the camera step is shown; the invariant is kept |
| Component.IkonhausAR.OnAcquisitionFailed | pages/index.js:106-110 | fields change as `Session.OnAcquisitionFailed` says; the invariant is kept |
| Component.IkonhausAR.OnPlaybackStarted | pages/index.js:84-86 | fields change as `Session.OnPlaybackStarted` says; the invariant is kept |
| Component.IkonhausAR.StopCamera | pages/index.js:114-128 | the track-stopping loop plus the resets give exactly `Session.StopCamera`; the invariant is kept |
| Component.IkonhausAR.PlaceArtwork | pages/index.js:130-154 | fields change as `Session.PlaceArtwork` says; the invariant is kept |
| Component.IkonhausAR.SelectSize | pages/index.js:471-474 | fields change as `Session.SelectSize` says; the invariant is kept |
| Component.IkonhausAR.ZoomOut | pages/index.js:494 | fields change as `Session.PressZoomOut` says; the invariant is kept |
| Component.IkonhausAR.ZoomIn | pages/index.js:512 | fields change as `Session.PressZoomIn` says; the invariant is kept |

## Left out

- SessionProps.PlacedOnlyOnCamera: the placement and held-stream conjuncts are proved only for runs in which no camera start happens while an earlier request is pending. `OverlappingRequestsLeavePlacement` shows that the source does not keep them otherwise. The zoom range holds on every run (`ZoomAlwaysInRange`).
- Rendering: all JSX and styling. Only the render conditions are modelled: the screen per step, the disabled continue button, which controls exist on each screen (`Enabled`), and the overlay condition.
- File decoding: `FileReader` is one event that delivers the data URL. A decode that finishes after the user has left the upload screen is not modelled.
- Camera API details: the `getUserMedia` constraints, the video element's attributes, and setting or clearing `srcObject` are not modelled. The video element appears only as "mounted exactly on the camera step".
- Timers: the 100 ms and 500 ms delays and the stale `cameraReady` read in the backup timer are not modelled. Both `play()` paths are the one `PlaybackStarted` event, which the model allows only on the camera step with a stream held. A rejected `play()` is no event.
- Failure after a stream was obtained: a throw inside the `try` after `getUserMedia` resolved would also leak that stream. The failure event carries no stream.
- Unmount cleanup (`useEffect`, pages/index.js:166-172): it stops the held tracks without clearing `streamRef`. Component teardown is not modelled.
- Output side effects: `console.log`, `alert`, the rounded zoom label and the shop link's `window.open`.
- Floating point: zoom, sizes and positions are exact reals, so the binary rounding of the 0.1 zoom steps and of the divisions is not modelled.
- Placement.Normalize: requires a container of positive width and height; `PlaceArtwork` asks this only when the tap is actually handled (camera step and ready). With a zero-sized container the browser divides by zero and gets Infinity or NaN, which the model does not represent.
- Touch events without any touch point: the browser then reads undefined client fields and gets NaN. The model's event always carries client coordinates.
- Calibration profiles, a capture-error taxonomy, a readiness timeout, cancelling a pending request and mirroring do not exist in pages/index.js, so they are not modelled.
