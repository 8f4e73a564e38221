# Robotic Property Photographer: viewpoint generator and capture driver

This project models, in Dafny, the two deterministic pieces of the property
photographer's capture pipeline and proves properties of them.

- **Viewpoint generator** (`camera_logic.dfy`, module `CameraLogic`). Given the
  centre of a parcel `(lat, lng)`, the generator returns five camera poses in a
  fixed order: North, East, South, West, Nadir. Each cardinal pose is one
  `OFFSET` (0.0015 degrees) from the centre along one axis. Every pose has height
  500, roll 0 and field of view 1.0472. The cardinals share pitch -0.44 and have
  headings 0, 1.57, 3.14, 4.71. Nadir sits on the centre with heading 0 and
  pitch -1.57. Coordinates are exact reals. The generator is a Dafny function,
  so it is pure and deterministic by construction.
- **Capture driver** (`render.dfy`, module `Render`, with the string helpers
  of `text.dfy`, module `Text`). This is the render endpoint's handler with the
  browser and file system taken out:
  - the method gate (405 for anything but POST);
  - the snapshot directory `<cwd>/public/snapshots/<order_id>/<customer_id>`
    and the artifact paths `<dir>/<name>.json` and `<dir>/<name>.png`;
  - the classification of each console message of the page as a sidecar write
    (`SIDECAR_DATA` token, at least three arguments), a frame capture (text
    starting `CAPTURE_FRAME:`, shot name = `text.split(':')[1]`), or a plain
    log line;
  - the completion test (text exactly `MISSION_COMPLETE`);
  - the append-only `imagePaths` list;
  - the success and error responses.

  The listeners' state is the class `CaptureSession`. Its fields are the
  written files (a map from path to content standing in for the directory),
  `imagePaths`, the host log and the `completed` flag. The capture listener is
  `HandleMessage`, the completion listener `ObserveCompletion`. What the capture
  listener produces from a stream of messages (paths, files and log together)
  is the function `CaptureAll`, and the session's methods are proved to produce
  exactly that. The handler itself is `Handle`, with `RunMission` for its try
  block. `RunMission` is proved against the specification function
  `MissionOutcome`, and `Handle` against `Respond`.

The browser is described by an `Environment`:
- whether it launches;
- the console messages the page logs while it loads;
- whether the page set-up and navigation succeed;
- the messages logged after that, up to the render timeout.

Messages logged while the page loads reach only the capture listener, because
the completion listener is registered after navigation settles. So a
`MISSION_COMPLETE` logged during loading is not seen, and the mission then ends
with the render timeout (`Render.RespondShape`).

The viewpoint generator is modelled as `lib/cameraLogic.js` writes it: a
fixed offset of 0.0015 degrees and a fixed height of 500, North listed first
and placed at `lat + 0.0015`.

The signals the driver reacts to (`SIDECAR_DATA`, `CAPTURE_FRAME:`,
`MISSION_COMPLETE`) come from whatever code runs in the page. The photo agent
in `components/PhotoAgent.js` flies the camera through the viewpoints and waits
for tiles. It logs only progress lines such as `Moving to North...` and emits
none of the three signals. So the driver is modelled against an arbitrary
console stream, and nothing about the page's agent is modelled.

## Model

| member | source | states |
|---|---|---|
| CameraLogic.GenerateViewpoints | lib/cameraLogic.js:5-68 | exactly five poses named North, East, South, West, Nadir in that order; every pose has height 500, roll 0 and fov 1.0472 whatever the inputs; the four cardinals share pitch -0.44 |
| CameraLogic.NamesDistinct | lib/cameraLogic.js:16-67 | the five names are pairwise distinct |
| CameraLogic.NorthSouthSymmetric | lib/cameraLogic.js:17-46 | North and South keep `lng`, lie on opposite sides of `lat`, each exactly OFFSET away |
| CameraLogic.EastWestSymmetric | lib/cameraLogic.js:27-56 | East and West keep `lat`, lie on opposite sides of `lng`, each exactly OFFSET away |
| CameraLogic.CardinalOneStep | lib/cameraLogic.js:6-56 | each cardinal pose moves from the centre by exactly OFFSET along exactly one axis |
| CameraLogic.NadirAtCentre | lib/cameraLogic.js:57-66 | Nadir is at (lat, lng) with heading 0 and pitch -1.57, minus one heading step |
| CameraLogic.CardinalHeadings | lib/cameraLogic.js:9-55 | cardinal i has heading i times 1.57, so the headings strictly increase in list order; every cardinal pitch is negative and shallower than Nadir's |
| CameraLogic.TranslationInvariant | lib/cameraLogic.js:5-68 | shifting the centre shifts every pose by the same amount and changes nothing else |
| Text.StartsWith | pages/api/render.js:63 | `text.startsWith(prefix)`: the text is at least as long as the prefix and begins with it |
| Text.StartsWithAppend | pages/api/render.js:63 | a text starts with a prefix exactly when it is that prefix followed by some rest |
| Text.Split | pages/api/render.js:64 | `split` on a one-character separator gives at least one piece and no piece contains the separator |
| Text.JoinSplit | pages/api/render.js:64 | joining the pieces of a split with the separator gives back the text |
| Text.SplitJoin | pages/api/render.js:64 | splitting a join of separator-free pieces gives back the pieces (the other round trip) |
| Text.SplitAfterField | pages/api/render.js:64 | a separator-free field followed by the separator splits off as the first piece |
| Text.SplitHead | pages/api/render.js:64 | the first piece is the text up to the first separator, or the whole text |
| Render.TemplateText | pages/api/render.js:51 | `${viewName}`: a string gives itself, any other value its template rendering (never its JSON text) |
| Render.ShotName | pages/api/render.js:63-64 | for a text with the `CAPTURE_FRAME:` prefix, `split(':')[1]` is the field after the prefix up to the next ':' or the end; it has no ':' and is empty for `CAPTURE_FRAME:` alone |
| Render.ShotFieldUnique | pages/api/render.js:64 | at most one name fits that description, so the shot name is determined by the text |
| Render.Classify | pages/api/render.js:43-73 | a message is a sidecar exactly when it has at least three arguments, the first is the string `SIDECAR_DATA` and the next two can be read; it is a frame capture exactly when it is not a sidecar and its text starts with `CAPTURE_FRAME:`; otherwise it is a plain line carrying its text |
| Render.IsComplete | pages/api/render.js:85 | the text equals `MISSION_COMPLETE` exactly; such a text does not start with `CAPTURE_FRAME:`, so a completion message never captures a frame |
| Render.PathJoin | pages/api/render.js:14-65 | `path.join(a, b)` as `a + "/" + b`, one character longer than the two parts; the normalisation of the real `path.join` is left out |
| Render.PathJoinParts | pages/api/render.js:14-65 | the joined path holds `a`, then '/', then `b`, unchanged |
| Render.ArtifactPath | pages/api/render.js:51-65 | the `filePath` of a sidecar or a capture: `<dir>/<name><ext>`, one character longer than the directory, name and extension together |
| Render.ArtifactUnder | pages/api/render.js:51-65 | an artifact path lies in its directory |
| Render.ArtifactInMissionDir | pages/api/render.js:14-65 | every artifact lies under `<cwd>/public/snapshots/<order_id>/<customer_id>/` and the rest of its path is the name and extension |
| Render.ArtifactPathInjective | pages/api/render.js:51-65 | within a directory the same name and extension give the same path, and different ones give different paths, so a sidecar and an image never collide |
| Render.Target | pages/api/render.js:45-73 | a message writes a file exactly when it is not a plain line |
| Render.ContentFor | pages/api/render.js:52-68 | what a written file holds: the sidecar's data exactly for a sidecar, and the screenshot of the current frame for a capture |
| Render.Written | pages/api/render.js:45-73 | a message appends at most one path, and appends none exactly when it is a plain line |
| Render.ReadSidecar | pages/api/render.js:45-60 | the sidecar branch: fewer than three arguments is never a sidecar; the read succeeds exactly when the first argument is the string `SIDECAR_DATA` and the next two can be read, giving the template text of the second as the view and the third as the data; it throws exactly when one of those reads rejects |
| Render.SnapshotDir | pages/api/render.js:14 | the snapshot directory is `<cwd>/public/snapshots/<order_id>/<customer_id>`, order id before customer id |
| Render.StoreArtifact | pages/api/render.js:51-68 | a plain line leaves the files unchanged, and no message removes a file |
| Render.StoreArtifactKeys | pages/api/render.js:51-68 | the files one message adds are exactly the paths it lists |
| Render.StoreArtifactContents | pages/api/render.js:51-68 | the listed file holds the sidecar data (a `.json` file) or the screenshot (a `.png` file), and every other file keeps its content |
| Render.LogLines | pages/api/render.js:54-72 | a message logs one line, or two when a sidecar read was caught first |
| Render.Capture | pages/api/render.js:43-74 | the capture listener for one message lists nothing exactly for a plain line and otherwise one path; it logs one or two lines and removes no file |
| Render.ResendOverwrites | pages/api/render.js:51-68 | re-sending a shot of the same kind and name adds no new file key, and the file holds the last write |
| Render.PathsWritten | pages/api/render.js:40-74 | a message stream appends at most one path per message |
| Render.PathsWrittenConcat | pages/api/render.js:40-74 | the paths of a stream are those of its first part followed by those of the rest, so the list only grows at its end |
| Render.PathsWrittenStep | pages/api/render.js:53-69 | one more message appends exactly what that message writes, after whatever the list already held |
| Render.PathsWrittenUnder | pages/api/render.js:14-69 | every listed path lies in the snapshot directory |
| Render.PlainStreamWritesNothing | pages/api/render.js:62-73 | messages that are only logged write nothing and list nothing |
| Render.FirstCompletion | pages/api/render.js:84-88 | finds the first message whose text is exactly `MISSION_COMPLETE`, and reports none when there is no such message |
| Render.Consumed | pages/api/render.js:82-90 | the wait consumes messages up to and including the first completion, or all of them when there is none |
| Render.CaptureAll | pages/api/render.js:43-74 | the capture listener over a stream, the i-th message shown as frame `firstFrame + i`: no file is ever removed, and each message logs one or two lines |
| Render.CaptureAllPaths | pages/api/render.js:53-69 | the paths a captured stream lists are the earlier ones followed by `PathsWritten` of the stream |
| Render.CaptureAllKeys | pages/api/render.js:51-68 | the files a captured stream leaves are the earlier ones plus exactly the paths it lists, so a re-sent shot adds no new file |
| Render.CaptureSession.constructor | pages/api/render.js:40 | a session starts with no paths, no files, an empty log and no completion |
| Render.CaptureSession.HandleMessage | pages/api/render.js:43-74 | one message appends its path (if any), writes or overwrites its file (if any) with the sidecar data or the screenshot, and logs its lines, exactly as `Capture` says; completion is untouched |
| Render.CaptureSession.ListenWhileLoading | pages/api/render.js:43-79 | the messages logged while the page loads produce exactly `CaptureAll` of them (paths, file contents and log), so they append exactly the paths they write, in order, and never complete the mission |
| Render.CaptureSession.AwaitCompletion | pages/api/render.js:81-90 | the wait completes exactly when some message after loading is `MISSION_COMPLETE`; the messages up to and including the first one (all of them otherwise) produce exactly `CaptureAll` of them, paths, file contents and log |
| Render.CaptureSession.Dispatch | pages/api/render.js:43-89 | a message after loading is captured by the capture listener (paths, files and log as `Capture` says) and then tested by the completion listener |
| Render.CaptureSession.ObserveCompletion | pages/api/render.js:84-89 | completion is set by the exact sentinel text and is never cleared |
| Render.Status | pages/api/render.js:8-101 | status 200 exactly for success, 405 exactly for the method gate, 500 otherwise |
| Render.MissionOutcome | pages/api/render.js:17-104 | the try block always answers success or an error: a launch error or page error carries its message; success echoes the ids and needs a launch, a loaded page and a completion after loading; a loaded mission without completion is the render timeout |
| Render.Respond | pages/api/render.js:7-104 | the handler answers 405 exactly for a method other than POST, and escapes unhandled exactly for a POST whose ids are not strings |
| Render.RespondShape | pages/api/render.js:7-104 | only POST gets past the gate; success echoes the request's ids and needs a launched browser, a loaded page and a completion message after loading; it lists at most one path per message, each in the mission's directory; a loaded mission without completion fails with `Render timeout` |
| Render.SuccessImagesArePrefix | pages/api/render.js:53-98 | the images of a successful response are the first entries of everything the mission writes |
| Render.LaterMessagesIgnored | pages/api/render.js:82-98 | messages after the first completion do not change the response |
| Render.RunMission | pages/api/render.js:17-104 | the try block's response is the launch or page error, the success response at the first completion, or the render timeout; a launched browser is always closed |
| Render.Handle | pages/api/render.js:7-104 | the handler's response is `Respond`; non-POST is rejected before any launch; the browser is launched only for POST with string ids and a successful launch, and is then always closed |

## Left out

- The browser itself is not modelled: Puppeteer's launch flags, the viewport,
  the injection of the mission data, the target URL built from the request
  headers, and the real screenshot and file writes. A launch outcome, a
  page outcome and the console stream are inputs; a screenshot is an abstract
  frame; the directory is a map.
- `fs.mkdir` and the earlier contents of the snapshot directory are not
  modelled: `files` holds what this mission writes.
- A failing `fs.writeFile` is not modelled. In the sidecar branch it would be
  caught and the message would fall through to the text test. In the capture
  branch it would be an unhandled rejection.
- The listeners are asynchronous in the source. The model handles each message
  to the end before the next one, so `imagePaths` is in the order the messages
  arrive. In the source a path is pushed when its write finishes. A sidecar
  awaits three `jsonValue()` reads and a `writeFile`; a capture awaits a
  `screenshot` and a `writeFile`. So a sidecar sent just before a
  `CAPTURE_FRAME:` can be listed after it. The "in order" statements of
  `Render.CaptureSession.ListenWhileLoading`, `Render.CaptureAll` and
  `Render.PathsWrittenConcat` hold of this sequential model only.
- The race where a screenshot or write is still pending when `MISSION_COMPLETE`
  arrives is not captured either; in the source that path would be missing from
  the response.
- Writes by messages that arrive after completion but before the browser closes
  are not modelled.
- The 60 s navigation timeout and the 120 s render timeout are not modelled as
  clocks. The first is one way for the page outcome to fail. The second is the
  end of the message sequence.
- `JSON.stringify(data, null, 2)` is not spelled out. A sidecar file holds the
  payload value itself. A string payload is its text; any other payload is
  identified by its serialised JSON text, kept beside the text a template
  literal gives it, so two objects with different contents stay different.
  The indentation and string escaping of `JSON.stringify` are not modelled.
- The host log does not tell `console.error` from `console.log`. The caught
  sidecar error is logged as a fixed line without the error object.
- Render.ArtifactInMissionDir: `path.join` is modelled as joining with '/'
  without normalisation. The containment and injectivity lemmas
  (`Render.ArtifactUnder`, `Render.ArtifactPathInjective`,
  `Render.PathsWrittenUnder`, `Render.RespondShape`) hold of that join only. The
  real `path.join` resolves '..' segments. So the text `CAPTURE_FRAME:../../x`, a
  sidecar name holding '..', or an id holding '..' makes the source write
  outside `public/snapshots/<order_id>/<customer_id>/`.
- An id that is not a string makes `path.join` throw before the try block. The
  model answers `Unhandled` and does not spell out the framework's own 500
  response.
- IEEE floating-point rounding of `lat + 0.0015` and similar sums: coordinates
  are exact reals.
- The in-page photo agent, the Cesium viewer, the pages, the browser singleton,
  the asset copy script, the HTTP test clients and the Next.js configuration are
  not part of this model: they are UI, renderer calls or I/O.
