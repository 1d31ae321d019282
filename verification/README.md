# Tracking server and camera client: a Dafny model

The project models two components of the camera manager that carry state, and the layers that must
agree with them:

- the **tracking server** (`src/tracking/tracking_server.cpp`): newline framing of a byte stream cut
  into arbitrary chunks, the JSON frame parser, the 23-byte control packet with its one-slot replay
  cache, and the start/stop protocol of the server thread;
- the **camera client** (`src/mav_client/camera_local_client.cpp`): settings, recording, SD-card
  supervision, render mode, AI function, format and reset exclusion, and the order of its locks;
- the **parameter file** (`src/camera_param/camera_param.cc`) under the settings, and the **parameter
  bridge** (`src/mav_client/mav_client.cpp`) through which they enter and leave as integers.

## How it is organised

Sequential behaviour is a class whose methods follow the code and are proved equal to a specification
function on values; the laws are about that function, over whole runs of calls. Concurrent behaviour
is a step relation with one program counter per thread, one step per access to shared state, explicit
mutexes, and an invariant kept by every step.

| file | what it holds |
|---|---|
| `LineFraming.dfy`, `FrameParser.dfy`, `TrackingServer.dfy` | framing, parsing, and the class `TrackingServer` that reads connections and publishes frames |
| `ControlPacket.dfy` | packet codec, packet index, command cache, tracking-point arithmetic |
| `ControlReplay.dfy` | commands, accepts and disconnects interleaving |
| `ServerLifecycle.dfy` | `start` and `stop` against the server thread |
| `FrameFreshness.dfy` | which frame the capture threads draw while the AI mode changes |
| `Exclusion.dfy` | concurrent `format_storage` and `reset_settings` callers |
| `LockOrder.dfy` | all lock, future and join waits |
| `CaptureFiles.dfy`, `Recording.dfy` | capture file names; photos, video and SD-card supervision |
| `CameraParam.dfy`, `CameraSettings.dfy`, `CameraClient.dfy` | the class `CameraParam`; the specification of the client on values; the class `CameraLocalClient` |
| `StartupLaws.dfy`, `ClientRuns.dfy`, `StartedClient.dfy` | what `init`, `set_setting` and `reset_settings` do to each setting, and to the set of settings |
| `SettingRules.dfy`, `StartRules.dfy` | tables of their own: when a setting is accepted, what a start gives it, when a start fails |
| `RestartLaws.dfy`, `StartCompletes.dfy`, `RenderLaws.dfy`, `StreamLaws.dfy`, `AiLaws.dfy` | laws over all runs of calls |
| `Decimal.dfy`, `ParamBridge.dfy` | printing and reading integers; the parameter bridge |
| `Wrappers.dfy` | `Option` |

The members `init` calls one after the other are a sequence of steps, in the code's order, and `init`
takes them one by one. Vendor cameras, the storage manager, `systemctl`, `std::stof` and the file system are oracles: each
call is told their answers as arguments, and every law holds for all answers.

## What the code does that its comments do not say

The model follows the code. Where it falls short of a plain reading of its intent, the failing case
and the exact condition are proved:

- `init` says its priority is environment, store, default; for the camera mode the environment is
  followed exactly when nothing, or the same mode, is stored
  (`RestartLaws.EnvironmentModeIsOnlyAFallback`, `StartCompletes.StoredModeBeatsEnvironment`).
- Selecting DNG forces full photo resolution in memory only (`RestartLaws.DngResolutionIsForgotten`),
  and also when the camera refuses the format, which leaves the render mode behind
  (`RenderLaws.SetKeepsRendering`).
- A refused vendor reset has already switched the camera mode to photo and does not refresh the render
  mode (`RenderLaws.ResetKeepsRendering`); the call still reports success.
- A camera mode other than "0" and "1" is accepted and comes back as video (`RestartLaws.RestartAfterSet`).
- A detection frame copied before a mode change can be drawn after it
  (`FrameFreshness.DrawnFrameIsFreshIffNotCleared`, `FrameFreshness.StaleFrameCanBeDrawn`).
- Boxes can come back after the AI was switched off and the empty overlay drawn, exactly when a capture
  thread was already under way (`FrameFreshness.BoxesReturnIffCaptureWasUnderWay`); a mode change
  empties the screen exactly when it switches the AI off, so one that fails leaves old boxes on it
  (`FrameFreshness.ModeChangeEmptiesOverlayIff`, `FrameFreshness.FailedStartLeavesBoxes`).
- After the run loop gave up by itself, the next `start` assigns over a joinable thread
  (`ServerLifecycle.StartAbortsIffLastRunGaveUp`).
- With 2^31 objects or more the published object count wraps (`FrameParser.CountMatchesObjects`).
- In Dual mode the recording flag is the IR recorder's state whatever the RGB camera does
  (`Recording.DualFlagFollowsIr`); it agrees with both recorders exactly as long as, at every call that
  starts or stops a recording, the two cameras answer alike (`Recording.DualStepAgreement`,
  `Recording.DualDisagreement`).
- A change of sensor mode while recording, also by a reset, leaves a recorder on with the flag down
  exactly when the stop that follows does not reach every camera that records
  (`Recording.ModeChangeWhileRecording`, `Recording.ModeChangeLeavesRecorderOn`).
- A value of MAVCAM_INIT_PHOTO_RESOLUTION other than "0" and "1" leaves the photo resolution without a
  value: empty in photo mode, where filling the parameters then fails, and unknown in video mode, where
  it cannot be set (`ParamBridge.UnnamedResolutionStart`). The laws about filling the parameters start
  from the other cases; all other laws over runs hold in this one too.
- Setters that do not read a number accept any text, after which filling the parameters ends in an
  exception (`ParamBridge.SetKeepsReadable`); so do texts of that kind in the parameter file
  (`ParamBridge.StartIsReadableIff`).

## Model

| member | source | states |
|---|---|---|
| `LineFraming.SplitLinesFrames` | src/tracking/tracking_server.cpp:270-273 | the lines taken off a byte string are its newline-terminated pieces in order, and the remainder has no newline |
| `LineFraming.FramingIsUnique` | src/tracking/tracking_server.cpp:270-273 | there is no other way to frame the same bytes |
| `LineFraming.SplitLinesAppend` | src/tracking/tracking_server.cpp:269-273 | framing can be resumed at any cut: only the unfinished remainder matters for the bytes to come |
| `TrackingServer.TrackingServer.DrainPending` | src/tracking/tracking_server.cpp:270-294 | the inner loop ends, publishes every complete line of the pending bytes in order and leaves exactly the remainder |
| `TrackingServer.TrackingServer.HandleClient` | src/tracking/tracking_server.cpp:250-297 | for every script of chunks, timeouts and ends, a connection has the effect of the lines of the concatenated bytes, and what is pending is their unfinished remainder |
| `TrackingServer.TrackingServer.ServeClients` | src/tracking/tracking_server.cpp:201-244 | several connections have the effect of their lines in order: no partial line is carried into the next connection |
| `TrackingServer.ConnectionsInOrder` | src/tracking/tracking_server.cpp:201-244 | the lines of several connections are those of each, one connection after the other |
| `TrackingServer.ChunkingDoesNotMatter` | src/tracking/tracking_server.cpp:259-294 | two scripts that deliver the same bytes have the same effect and the same remainder |
| `TrackingServer.ReceivedInOrder` | src/tracking/tracking_server.cpp:259-269 | a connection delivers its chunks in order: timeouts add nothing, and nothing counts after a stop or an end |
| `TrackingServer.LatestIsLastPublished` | src/tracking/tracking_server.cpp:274-292 | after any lines the latest frame is the last one that parsed, rejected lines leave it alone, the callback got exactly the published frames, and the thread survives if and only if no line throws |
| `TrackingServer.PublishedCounts` | src/tracking/tracking_server.cpp:280-292 | every frame ever published announces as many objects as it carries, exactly up to 2^31 - 1 objects |
| `FrameParser.AcceptedObjects` | src/tracking/tracking_server.cpp:339-371 | what is published: stream and frame number of the document and, in input order, every detection with the name, x and y of its members, absent ones empty or zero, and the short dimension keys preferred; without an array an empty frame |
| `FrameParser.OutcomeOfDocument` | src/tracking/tracking_server.cpp:339-371 | exactly which documents are accepted and which are rejected, member by member; all others throw |
| `FrameParser.CountMatchesObjects` | src/tracking/tracking_server.cpp:352-370 | the count of an accepted frame equals its number of objects if and only if that number is an int32 |
| `ControlPacket.DecodeOfEncode` | src/tracking/tracking_server.cpp:299-308 | every command survives encoding and decoding |
| `ControlPacket.PacketLayout` | src/tracking/tracking_server.cpp:299-308 | the 23 bytes one by one: sixteen zeros, the index, x and y low byte first, the two flags |
| `ControlPacket.EncodeOfDecode` | src/tracking/tracking_server.cpp:299-308 | what decodes is an encoding: the packet form is canonical |
| `ControlPacket.DecodeOfEncodeStream` | src/tracking/tracking_server.cpp:299-322 | a stream of packets cuts into exactly the commands that were encoded |
| `ControlPacket.IndexIsCountModulo` | src/tracking/tracking_server.cpp:302 | the n-th packet of serialized callers carries n modulo 256 |
| `ControlPacket.IndicesRepeatEvery256` | src/tracking/tracking_server.cpp:302 | two packets share an index if and only if their distance is a multiple of 256 |
| `ControlPacket.CacheHoldsLatestCommand` | src/tracking/tracking_server.cpp:299-311 | after any commands the cache is empty or the 23-byte encoding of the latest one, under its count modulo 256 |
| `ControlPacket.PixelError` | src/mav_client/camera_local_client.cpp:1727-1742 | a pixel is at most one below the clamped scaled coordinate, and is its floor if and only if the coordinate is below one |
| `ControlPacket.PixelOutside` | src/mav_client/camera_local_client.cpp:1727-1742 | points beyond an edge are sent as the pixel at that edge |
| `ControlPacket.PixelMonotone` | src/mav_client/camera_local_client.cpp:1727-1742 | pixels are monotone in the input |
| `ControlPacket.PointReachesClient` | src/mav_client/camera_local_client.cpp:1727-1745 | for every real point and camera mode, the packet decodes to the pixel the point falls on in a picture of 1920 by 1440 in photo mode and 1920 by 1080 otherwise |
| `TrackingServer.TrackingServer.SendControlCommand` | src/tracking/tracking_server.cpp:299-336 | the packet is cached and written if a client is connected; true exactly when there is none or the whole packet was written |
| `ControlReplay.ReplayIsExact` | src/tracking/tracking_server.cpp:221-242 | in every interleaving the packets sent on a connection are exactly those it is due, none lost, repeated or out of order |
| `ControlReplay.ClientReceivesLastThenLive` | src/tracking/tracking_server.cpp:221-242 | a client is sent the last command issued before it was installed, then every command issued while it is current |
| `ControlReplay.ReturnTellsDelivery` | src/tracking/tracking_server.cpp:310-336 | in every interleaving a command returns true if and only if no client was current or its whole packet was written |
| `ControlReplay.ClientDecodesItsCommands` | src/tracking/tracking_server.cpp:221-242 | without short sends the bytes a client received decode to exactly the commands it is due |
| `ControlReplay.ClientDecodesWhatWasSent` | src/tracking/tracking_server.cpp:221-242 | when every send is complete or fails, the bytes decode to exactly the fully sent commands, a subsequence of those due |
| `ServerLifecycle.StopMakesProgress` | src/tracking/tracking_server.cpp:114-127 | while a stop is in progress every step of either thread lowers a lexicographic measure |
| `ServerLifecycle.StopIsNeverStuck` | src/tracking/tracking_server.cpp:114-127 | while a stop is in progress some step is sure to be taken without help from a client |
| `ServerLifecycle.StopCannotRunForever` | src/tracking/tracking_server.cpp:114-297 | no infinite sequence of steps stays inside one stop |
| `ServerLifecycle.AtMostOneMoreCall` | src/tracking/tracking_server.cpp:201-266 | once stop has cleared the flag the server thread completes at most one more accept or receive in total |
| `ServerLifecycle.NothingLeftAfterStop` | src/tracking/tracking_server.cpp:114-127 | after stop no thread and no descriptor is left and only a start is possible, so no callback can fire |
| `ServerLifecycle.StartAbortsIffLastRunGaveUp` | src/tracking/tracking_server.cpp:108-170 | a start ends the process if and only if the last run loop gave up by itself |
| `ServerLifecycle.StartAfterGivingUpAborts` | src/tracking/tracking_server.cpp:164-170 | the failing sequence, concretely |
| `FrameFreshness.CopiedFrameIsFresh` | src/mav_client/camera_local_client.cpp:923-953 | every frame a capture callback copies was delivered after the latest clear by the session of the latest switch from off |
| `FrameFreshness.DrawnFrameIsFreshIffNotCleared` | src/mav_client/camera_local_client.cpp:923-947 | a drawn frame is still fresh if and only if no mode change cleared the frame since it was copied |
| `FrameFreshness.StaleFrameCanBeDrawn` | src/mav_client/camera_local_client.cpp:923-947 | a reachable state with AI on in which a stale frame is about to be drawn |
| `FrameFreshness.ServerLivesWhileOn` | src/mav_client/camera_local_client.cpp:1790-1821 | between mode changes the server thread exists exactly while the mode is on |
| `FrameFreshness.BoxesReturnIffCaptureWasUnderWay` | src/mav_client/camera_local_client.cpp:923-947 | with the AI off and the empty overlay drawn, boxes can come back before the next mode change if and only if a capture thread was past its check with a frame to draw |
| `FrameFreshness.ModeChangeEmptiesOverlayIff` | src/mav_client/camera_local_client.cpp:1780-1821 | from any reachable state, a change of mode during which no capture thread draws ends with an empty overlay if and only if it switches the AI off or the overlay was empty |
| `FrameFreshness.FailedStartLeavesBoxes` | src/mav_client/camera_local_client.cpp:1800-1813 | a reachable state with the AI off after a failed mode change and old boxes on the screen |
| `Exclusion.OneFormatAtATime` | src/mav_client/camera_local_client.cpp:459-475 | for any callers at most one vendor format is in flight and the flag is set exactly while a winner has not released it |
| `Exclusion.FormatResultTellsWork` | src/mav_client/camera_local_client.cpp:464-474 | a format call that reports success ran exactly one format, a busy one none |
| `Exclusion.ResetFlagMeansResetterHoldsMutex` | src/mav_client/camera_local_client.cpp:483-546 | the reset flag is set only while one resetting caller holds the action mutex |
| `Exclusion.ResetIsNeverBusyAndCallsBackOnce` | src/mav_client/camera_local_client.cpp:483-546 | the busy answer of reset is unreachable and a given callback ran exactly once before success is returned |
| `LockOrder.CallsAreOrdered` | src/mav_client/camera_local_client.cpp:256-546 | every call, on each of its paths and with any number of log lines, takes locks, futures and the join in one increasing order |
| `LockOrder.ServerIsOrdered` | src/tracking/tracking_server.cpp:155-297 | the server thread uses only resources above the join |
| `LockOrder.EveryWaitEndsAtAStepper` | src/mav_client/camera_local_client.cpp:1890-1945 | no deadlock: in every reachable state each unfinished thread can step, or waits through a chain for one that can |
| `LockOrder.NoThreadRelocks` | src/tracking/tracking_server.cpp:221-242 | no thread asks for a mutex it holds, and a finished thread holds none |
| `CaptureFiles.PathIsPadded` | src/mav_client/camera_local_client.cpp:274-289 | a path is folder, slash, brand, the index in at least four digits with no leading zero beyond the fourth, a dot, and the extension |
| `CaptureFiles.PhotoExtensions` | src/mav_client/camera_local_client.cpp:279-288 | IR photos are jpg, RGB photos jpg in format "0" and dng otherwise |
| `CaptureFiles.ReadGeneratedPath` | src/mav_client/camera_local_client.cpp:274-289 | index and extension can be read back from every generated path, whatever the width of the index |
| `CaptureFiles.CapturePathInjective` | src/mav_client/camera_local_client.cpp:274-289 | with one folder and brand two paths are equal if and only if index and extension are |
| `CaptureFiles.DualShotFilesDiffer` | src/mav_client/camera_local_client.cpp:304-315 | the two files of a Dual shot never coincide |
| `Recording.CameraRecorder.StartVideo` | src/mav_client/camera_local_client.cpp:328-385 | denied below 200 MiB or without a path; otherwise, field by field, which recorders, flag and LED go on for each mode and answer, and the result |
| `Recording.StartIsItsEvents` | src/mav_client/camera_local_client.cpp:328-385 | a call of start_video does what its events do in a run |
| `Recording.CameraRecorder.StopVideo` | src/mav_client/camera_local_client.cpp:387-427 | without a recording nothing changes; otherwise, field by field, which recorders, flag and LED change for each mode and answer, and the result |
| `Recording.StopIsItsEvent` | src/mav_client/camera_local_client.cpp:387-427 | a call of stop_video does what its event does in a run |
| `Recording.CameraRecorder.StorageReported` | src/mav_client/camera_local_client.cpp:1901-1945 | field by field: validity is formatted with at least 200 MiB; a report that ends it while recording attempts a stop, which takes flag and recorders down exactly as the cameras answer; an edge lights one LED |
| `Recording.ReportIsItsEvents` | src/mav_client/camera_local_client.cpp:1901-1945 | a storage report does what its event, and the stop it may wait for, do in a run |
| `Recording.CameraRecorder.TakePhoto` | src/mav_client/camera_local_client.cpp:256-326 | which files are written, the result, the image count and LED, and that no file is written twice |
| `Recording.FlagIsRecorderState` | src/mav_client/camera_local_client.cpp:328-427 | over any run from rest, in any mode and with mode changes, flag, mode and recorders agree after every event if and only if every event keeps them so; the flag is then the recorders' real state |
| `Recording.StepKeepsAgreementIff` | src/mav_client/camera_local_client.cpp:328-427 | the exact condition for one event: both cameras, where both are called to change state, answer alike, and a mode change happens at rest or to a mode with the same cameras |
| `Recording.FixedModeFlagIsRecorderState` | src/mav_client/camera_local_client.cpp:328-427 | in a fixed mode that does not use both cameras the flag is the recorder's real state after any interleaving and any failures |
| `Recording.StartsFollowGoodReadings` | src/mav_client/camera_local_client.cpp:333-340 | every vendor start follows a storage reading of at least 200 MiB by its caller |
| `Recording.DualFlagFollowsIr` | src/mav_client/camera_local_client.cpp:364-415 | in Dual mode the flag is the IR recorder's real state over every run |
| `Recording.DualStepAgreement` | src/mav_client/camera_local_client.cpp:364-415 | from any agreeing state a start keeps flag and both recorders together if and only if they were recording or the cameras answer alike, a stop if and only if they were not or the cameras answer alike |
| `Recording.DualDisagreement` | src/mav_client/camera_local_client.cpp:364-379 | a run after which the RGB camera records with the flag down and a stop does nothing |
| `Recording.ModeChangeWhileRecording` | src/mav_client/camera_local_client.cpp:393-422 | a recording begun in any mode, any mode change and a successful stop: the flag is right about both recorders if and only if that stop reaches every camera that records, or none |
| `Recording.ModeChangeLeavesRecorderOn` | src/mav_client/camera_local_client.cpp:393-422 | in every failing case the flag is down and exactly the camera the new mode does not use keeps recording |
| `Recording.SupervisionIsAFold` | src/mav_client/camera_local_client.cpp:1921-1945 | the remembered validity is that of the last report and the SD-driven LED commands are all validities with adjacent duplicates removed |
| `Recording.DedupAlternates` | src/mav_client/camera_local_client.cpp:1921-1945 | removing adjacent duplicates leaves an alternating sequence with the first and last validity |
| `CameraParameters.CameraParam.SetValue` | src/camera_param/camera_param.cc:13-26 | a write that opens the file moves one text only and makes the file agree with memory; a failed one moves nothing |
| `CameraParameters.CameraParam.GetValue` | src/camera_param/camera_param.cc:9-11 | reading gives the stored text or the empty one, and leaves a null member behind |
| `CameraParameters.PutAt` | src/camera_param/camera_param.cc:13-26 | a write moves one member only, and a successful one makes every member durable |
| `CameraClient.CameraLocalClient.SetSetting` | src/mav_client/camera_local_client.cpp:736-809 | for every setting and value of a complete client: taken, and stored if the file opens, exactly when the value reads as it must and every camera the setting asks answers ok; else unchanged, with an exception exactly for a text that is no number; all other settings stay |
| `SettingRules.SetFollowsRules` | src/mav_client/camera_local_client.cpp:748-808 | the same for the named setting, with its table of cameras asked and numbers read |
| `SettingRules.ModeChanges` | src/mav_client/camera_local_client.cpp:1196-1205 | a willing camera changes its mode, with the render mode of the resolution |
| `SettingRules.RenderModeInserts` | src/mav_client/camera_local_client.cpp:1982-1997 | reading the render mode inserts the camera mode and the resolution that matters in it, empty, and changes nothing else |
| `SettingRules.RenderOfModes` | src/mav_client/camera_local_client.cpp:1982-1997 | the render mode for every camera mode and resolution, known or not |
| `CameraClient.CameraLocalClient.SetAiFunction` | src/mav_client/camera_local_client.cpp:1756-1821 | for every mode and outcome: only the service asked for is up, exactly if its start succeeded or left it up; server and setting are on exactly after a success; an unknown mode changes nothing |
| `CameraClient.CameraLocalClient.ResetSettings` | src/mav_client/camera_local_client.cpp:477-547 | setting by setting, what reset rewrites, stores or keeps for either vendor answer; after a success both services and the tracking server are down |
| `CameraClient.CameraLocalClient.InitRenderMode` | src/mav_client/camera_local_client.cpp:1982-1997 | the render mode is the function of three settings, and which keys reading them inserts |
| `CameraClient.CameraLocalClient.Start` | src/mav_client/camera_local_client.cpp:822-865 | ends in an exception exactly when some stored text breaks it; on a constructed client whose writes succeed, every setting has its stored text or, with nothing stored, the camera's own answer, the environment's mode, or its constant |
| `CameraClient.CameraLocalClient.EnableTrackingPoint` | src/mav_client/camera_local_client.cpp:1727-1745 | true exactly when no client is connected or the whole packet was written; the cached packet decodes to tracking on at the pixel the point falls on in the picture of the current mode |
| `CameraClient.CameraLocalClient.GetSetting` | src/mav_client/camera_local_client.cpp:811-820 | a known setting is reported with its text, an unknown one is refused |
| `StartupLaws.StartLoadsTheStore` | src/mav_client/camera_local_client.cpp:822-865 | a start that completes leaves exactly the known settings, each with its stored value or default, the same texts durably stored, the matching render mode, and AI off |
| `StartRules.StartFollowsRules` | src/mav_client/camera_local_client.cpp:962-1709 | setting by setting: stored texts are kept, and with nothing stored VIDFMT is "1" exactly for an H265 encoder, resolutions, white balance, EV, ISO and shutter are the camera's own, IR settings the IR camera's or "0" and "1", the interval "1800", all others "0" |
| `StartRules.StartThrowsIff` | src/mav_client/camera_local_client.cpp:1127-1709 | whatever the environment and whichever writes succeed, a start ends in an exception if and only if some stored text breaks it: which texts are read as numbers, and in which exposure mode |
| `ClientRuns.SetAt` | src/mav_client/camera_local_client.cpp:748-808 | set_setting touches the memory and the stored text of the named setting only, plus, in memory, the photo resolution for DNG and, empty, an unknown one in photo mode |
| `ClientRuns.ResetAt` | src/mav_client/camera_local_client.cpp:491-539 | reset rewrites and stores exactly its listed settings, and only the camera mode if the vendor refuses |
| `ClientRuns.OpKeepsComplete` | src/mav_client/camera_local_client.cpp:742-745 | no call removes a setting, and none adds one but the photo resolution |
| `StartedClient.StartLeaves` | src/mav_client/camera_local_client.cpp:822-865 | whatever the environment and whichever writes succeed, a start leaves known settings, all but possibly the photo resolution, the matching render mode and idle AI, and sends nothing |
| `RestartLaws.RestartRestores` | src/mav_client/camera_local_client.cpp:491-530 | after a start whose writes succeed, in any environment, any run in which the calls that name a setting give it storable values and write them, and a restart in any environment, that stored setting has the value it had |
| `RestartLaws.RestartClearsVolatile` | src/mav_client/camera_local_client.cpp:845-855 | AE lock, FFC trigger and AI function start at "0" |
| `RestartLaws.RestartAfterSet` | src/mav_client/camera_local_client.cpp:797-802 | what a restart makes of any accepted value: a failed write keeps the old one, an empty text gives the default, another camera mode becomes video |
| `RestartLaws.DngResolutionIsForgotten` | src/mav_client/camera_local_client.cpp:1322-1332 | after DNG, memory and restart agree on the photo resolution if and only if it was full already |
| `RestartLaws.EnvironmentModeIsOnlyAFallback` | src/mav_client/camera_local_client.cpp:994-1031 | a start follows the camera mode of the environment if and only if nothing is stored or the stored mode reads as the same |
| `StartCompletes.StoredModeBeatsEnvironment` | src/mav_client/camera_local_client.cpp:994-1031 | with video in the environment and photo in the store a start goes through and ends in photo mode |
| `StartCompletes.StartAfterAnyRun` | src/mav_client/camera_local_client.cpp:797-802 | from a readable file, in any environment and whichever writes succeed, a start goes through and so does the next one after any run of calls: no number the client stored, integer or float, ends it, and the file is readable again |
| `StartCompletes.StartGoesThrough` | src/mav_client/camera_local_client.cpp:962-1152 | a start from a store whose numbers read as numbers completes and leaves such a store |
| `RenderLaws.RenderShowsSettings` | src/mav_client/camera_local_client.cpp:1982-1997 | for known values the render mode tells the camera mode and its resolution |
| `RenderLaws.SetKeepsRendering` | src/mav_client/camera_local_client.cpp:747-806 | set_setting keeps the render mode in step if and only if it is not a refused DNG in photo mode at quarter resolution |
| `RenderLaws.ResetKeepsRendering` | src/mav_client/camera_local_client.cpp:491-534 | reset keeps it in step if and only if the vendor succeeds or the switch to photo mode changes nothing |
| `RenderLaws.RefreshHeals` | src/mav_client/camera_local_client.cpp:804-806 | any accepted change of a mode, resolution or photo format brings a stale render mode back in step, from any state |
| `RenderLaws.RunKeepsRendering` | src/mav_client/camera_local_client.cpp:747-806 | over every run the render mode is the one the settings ask for after each call if and only if neither of those two situations arises |
| `RenderLaws.RunsFromStartRender` | src/mav_client/camera_local_client.cpp:747-865 | from a start on, in any environment and whichever writes succeed, over every run in which photo formats and resets are accepted, the render mode is the one the settings ask for |
| `StreamLaws.StartFollows` | src/mav_client/camera_local_client.cpp:1207-1260 | a start selects the sensor and the preview stream its settings name |
| `StreamLaws.RunKeepsStreaming` | src/mav_client/camera_local_client.cpp:500-534 | over every run the sensor and the preview stream in use follow their settings |
| `StreamLaws.RunsFromStartStream` | src/mav_client/camera_local_client.cpp:500-865 | from a start on, in any environment and whichever writes succeed, over every run, each known sensor mode has its sensor and each numeric display mode its preview |
| `AiLaws.RunKeepsAiAgreement` | src/mav_client/camera_local_client.cpp:1756-1821 | over every run of settings and resets with any start failures: one known mode, never both services, the server up exactly while the AI function is on |
| `AiLaws.RunsFromStartAgree` | src/mav_client/camera_local_client.cpp:822-865 | the same from a start on, in any environment and whichever writes succeed |
| `AiLaws.RunsFromStartCache` | src/mav_client/camera_local_client.cpp:822-865 | from a start on, over every run, the cached packet is empty or decodes to the latest command of the run |
| `AiLaws.SetAiTells` | src/mav_client/camera_local_client.cpp:1756-1821 | a valid mode succeeds if and only if the setting equals it afterwards; an invalid one changes nothing |
| `AiLaws.RunFollowsRequests` | src/mav_client/camera_local_client.cpp:1756-1821 | over every run setting, services and server are those of the latest valid request: with the AI off, a service is up only if that request named it and its failed start left it up |
| `AiLaws.RunsFromStartFollow` | src/mav_client/camera_local_client.cpp:822-865 | the same from a start on, in any environment |
| `AiLaws.RunIssues` | src/mav_client/camera_local_client.cpp:1727-1749 | over every run the packet index and cache are those of exactly the commands the run sent, in order |
| `AiLaws.CacheAfterRun` | src/tracking/tracking_server.cpp:299-311 | after any run the cache decodes to the latest command, numbered by their count |
| `AiLaws.Mode2AsksForDetection` | src/mav_client/camera_local_client.cpp:1815-1819 | a successful switch to mode 2 leaves the cache decoding to detection on, tracking off, point (0,0) |
| `AiLaws.TrackOffAsksForDetection` | src/mav_client/camera_local_client.cpp:1747-1749 | turning tracking off leaves the cache decoding to detection on, tracking off, point (0,0), under the next index |
| `AiLaws.TrackedPointIsCached` | src/mav_client/camera_local_client.cpp:1727-1745 | a tracking point is cached under the next index as the pixel it falls on in the picture of the current camera mode |
| `AiLaws.StartSendsNothing` | src/mav_client/camera_local_client.cpp:1751-1754 | a start sends no control packet |
| `Decimal.StoiOfToString` | src/mav_client/mav_client.cpp:292-318 | printing and reading back is the identity on every int32, the minimum included |
| `Decimal.ToStringInjective` | src/mav_client/mav_client.cpp:292-300 | different integers have different texts |
| `Decimal.StoiReads` | src/mav_client/mav_client.cpp:308-318 | a text of white space, a sign, digits and anything after them reads as its number if that fits 32 bits |
| `Decimal.StoiRejects` | src/mav_client/mav_client.cpp:308-318 | a text is an invalid argument if and only if it has no such form |
| `ParamBridge.AcceptedRanges` | src/mav_client/camera_local_client.cpp:1472-1593 | exactly which integer parameters the setters that read an integer accept, over all of int32 |
| `ParamBridge.AcceptedAiModes` | src/mav_client/camera_local_client.cpp:1756-1760 | exactly which integers the AI function accepts |
| `ParamBridge.MavClient.ProvideEntries` | src/mav_client/mav_client.cpp:308-319 | entries are provided in order up to the first that does not read as a number |
| `ParamBridge.MavClient.FillParam` | src/mav_client/mav_client.cpp:304-320 | goes through if and only if shutter speed and exposure value read as floats and all other settings as integers, and then provides exactly those numbers |
| `ParamBridge.MavClient.IntParamChanged` | src/mav_client/mav_client.cpp:292-300 | an accepted integer change leaves a setting whose text reads as exactly that integer |
| `ParamBridge.MavClient.RetrieveCurrentSettings` | src/mav_client/camera_local_client.cpp:726-734 | every setting is listed exactly once, in an order nothing depends on |
| `ParamBridge.FillIsOrderIndependent` | src/mav_client/mav_client.cpp:304-320 | the provided parameters do not depend on the order of the settings map |
| `ParamBridge.AcceptedIntComesBack` | src/mav_client/mav_client.cpp:292-318 | for every int32, an accepted integer parameter is provided again unchanged by the next filling, which goes through |
| `ParamBridge.StartIsReadableIff` | src/mav_client/mav_client.cpp:304-320 | right after a start the parameters can be filled if and only if every stored text, or default where nothing is stored, reads as a number and the photo resolution has a value |
| `ParamBridge.IntComesBackAfterAnyRun` | src/mav_client/mav_client.cpp:281-320 | from a start on a readable file whose writes succeed and whose photo resolution has a value, over any run of texts that read as numbers, the start and the filling go through and every accepted int32 parameter comes back unchanged |
| `ParamBridge.SetKeepsReadable` | src/mav_client/mav_client.cpp:308-318 | set_setting keeps the parameters fillable if and only if an accepted text reads as a number |
| `ParamBridge.UnnamedResolutionStart` | src/mav_client/camera_local_client.cpp:1043-1053 | what a start with an environment that names no photo resolution leads to, in either camera mode |
| `ParamBridge.RunKeepsReadable` | src/mav_client/mav_client.cpp:304-320 | over any run of settings that read as numbers and of resets, filling goes through |

## Left out

- FrameParser: JSON lexing, and JSON numbers with a fraction or beyond 64 bits; a document is an already parsed tree.
- TrackingServer: sockets, address resolution, log files and the wording of log lines; a receive delivers 1 to 4096 bytes, a timeout or an end.
- ServerLifecycle: descriptor reuse by the operating system and data races on plain fields; accesses are atomic, start and stop are serialized by their caller, an invalid port is refused before anything modelled here, and an `accept` on a descriptor that was shut down or closed is taken to return.
- ControlPacket.Pixel: coordinates are reals, so float rounding and NaN are not modelled.
- ControlReplay.ReplayIsExact: order is the order of the client mutex; packet numbers of concurrent callers may leave in another order than they were drawn.
- AiLaws.RunKeepsAiAgreement: stopping a service always succeeds; the tracking server always starts when it is not already up (its port is a positive constant) and does not give up by itself, which ServerLifecycle covers.
- LockOrder.EveryWaitEndsAtAStepper: vendor calls, sockets and callbacks are taken to return; that the join inside `stop` is eventually served is ServerLifecycle.StopCannotRunForever. Each call is written as the sequence of its waits, one per path; its other effects are in the other files.
- CameraClient.CameraLocalClient.EnableTrackingPoint: the socket write itself is in TrackingServer.TrackingServer.SendControlCommand; here its outcome is an argument.
- FrameFreshness.CopiedFrameIsFresh: mode changes are serialized by their caller; drawing is a recorded event, and its drawing code is not modelled.
- CameraClient.CameraLocalClient.Start: library loading, a missing camera or storage manager, and vendor answers to the re-applied settings other than exceptions; one `opens` flag stands for all file writes of one call.
- CameraClient.CameraLocalClient.SetSetting: setters that pass an uninitialised vendor value for an unknown text have an arbitrary vendor answer; `std::stof` is one function of the text, otherwise unknown; `set_mode` is the action mutex around this call.
- SettingRules.SetFollowsRules: which vendor value a text is translated to, and so whether a stored value handed to a camera again by a start has the same effect there; a camera's answer is all the client sees of it.
- CameraParameters.CameraParam: crashes in the middle of a file write, and stored members that are not strings.
- ParamBridge.MavClient: the printing of float parameters and the notifications of the parameter server.
- Recording: `popen`, LED processes and the storage manager's own state; a LED command is an element of a sequence.
- CaptureFiles: negative file indices.
- Concurrent claims are step relations rather than classes, since Dafny methods do not interleave.
- Streaming, zoom, timestamps, video stream information and capture status: thin forwarding.
- `camera_impl.cpp`, the gRPC client, generated protobuf code and the enum translations: thin wrappers and finite tables.
