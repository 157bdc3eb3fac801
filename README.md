# EarTrainer server core in Dafny

EarTrainer is a small Express server (`index.js`) for ear training. It stores uploaded audio files, mixes noise into them with ffmpeg, serves them back for a waveform view, and keeps each user's progress. This project models its in-memory part:

- `audioFiles`, the file registry, maps a file id to `{path, originalName}`. POST `/upload` writes it. POST `/process` and GET `/waveform/:fileId` read it.
- `userSessions`, the progress store, maps a user id to `{levelsCompleted, accuracy}`. GET and POST `/progress/:userId` use it.
- The request that POST `/process` hands to the audio engine. It has the stored input path, a fixed filter graph, codec `libmp3lame`, bitrate 192 and the output path `<base>/processed/<fileId>-processed.wav`.
- The life of one engine run. The `start`, `end` and `error` events drive it, and the `end` and `error` handlers answer the waiting client.

Layout:

- `wrappers.dfy`: Option and Result.
- `records.dfy`: the stored records, the HTTP responses and the fixed reply texts.
- `progress_store.dfy`: the progress store and its laws over any series of POST requests.
- `file_registry.dfy`: the file registry, upload paths and the waveform route.
- `transform.dfy`: the request builder and the output-path laws.
- `job_lifecycle.dfy`: the event state machine (Running, then Succeeded or Failed) and the `Job` class that the event handlers step.
- `server.dfy`: the `Server` class. It holds the two dictionaries as `map` fields. The routes that change them (upload, progress update) are methods, and so is the route that starts a job. The read-only routes are the pure functions `ProgressStore.Get` and `FileRegistry.Waveform`, applied to those fields. The module also has three end-to-end scenarios.

Responses are values of `Records.Response`, a status code plus a body, not calls on `res`. The job's phase is an abstraction. In the source, what a job has done shows only in the responses its handlers have sent. `Job.replies` records every send attempt. `Job.phase` records the outcome of the first terminal event.

`levelsCompleted` is not a monotone counter: POST adds whatever delta it receives, with no clamp (index.js:108). `ProgressStore.NegativeDeltaLowersLevels` shows this.

## Model

| member | source | states |
|---|---|---|
| ProgressStore.Get | index.js:93-97 | a known user gets the stored record; an unknown user gets {0, 0}, and being a function of the map it inserts nothing |
| ProgressStore.Update | index.js:104-109 | the level count changes by exactly the delta (a missing or 0 delta adds 0); the new accuracy is at least the old one and the candidate (a missing one counts as 0), and is one of the two |
| ProgressStore.Post | index.js:100-112 | after a POST, the store's keys are the old keys plus the user; that user's entry is the update of the old record, or of {0, 0} for a new user; every other entry is unchanged |
| ProgressStore.PostKeepsAccuracyNonNegative | index.js:105-109 | if every stored accuracy is at least 0, it still is after a POST, and the user's accuracy has not decreased |
| ProgressStore.PostAllPerUser | index.js:100-112 | after any series of POSTs, a user's levels are the earlier levels plus the sum of that user's deltas; the accuracy is the larger of the earlier accuracy and the best accuracy that user sent; the entry exists iff it existed before or some POST named the user; requests for other users leave it alone |
| ProgressStore.AccuracyNeverDecreases | index.js:109 | across any series of POSTs a user's accuracy never goes down and stays at least 0 |
| ProgressStore.NegativeDeltaLowersLevels | index.js:108 | a negative delta is added unclamped, so the level count can go down |
| ProgressStore.TwoPostsScenario | index.js:100-112 | (u1, 2, 80) then (u1, 3, 60) on an empty store leaves {5, 80} |
| FileRegistry.UploadPath | index.js:34 | the upload path starts with `<base>/uploads/<fileId>`; the rest is the extension parameter |
| FileRegistry.Register | index.js:39 | a successful upload adds exactly the fresh id, bound to {uploadPath, originalName}, and keeps every other entry |
| FileRegistry.RegisterKeepsStoredUnderOwnId | index.js:33-39 | every registered file stays stored under its own id in the uploads directory |
| FileRegistry.Waveform | index.js:81-90 | status 200 iff the id is registered, and then the body is exactly the stored path; otherwise 404 "Audio file not found." |
| FileRegistry.WaveformAfterRegister | index.js:81-90 | after registering an id, the waveform route serves exactly the path stored for it; other ids are answered as before |
| Transform.Build | index.js:45-62 | 404 "Audio file not found." iff the id is unregistered; otherwise the request reads the stored path, writes `OutputPath`, and uses the fixed filter options, `libmp3lame` and bitrate 192 |
| Transform.BuildIgnoresTuning | index.js:46-62 | the request is the same whatever `noiseLevel` and `volumeAdjustment` are |
| Transform.OutputPathRoundTrip | index.js:53 | `ProcessedFileId` recovers the file id from the output path, and a path maps back to an id iff it is that id's output path |
| Transform.OutputPathInjective | index.js:53 | two file ids share an output path iff they are equal |
| Transform.OutputIsNeverAnUpload | index.js:34-53 | an output path never equals the stored path of a registered upload, so processing never overwrites an input |
| JobLifecycle.RunRepliesOncePerTerminal | index.js:63-75 | over any series of events, one response is sent per `end` or `error` event and none per `start` |
| JobLifecycle.RunSettled | index.js:66-75 | once a job has finished, later events never change its outcome |
| JobLifecycle.RunWithoutTerminal | index.js:63-65 | while only `start` events have come, the job stays Running and nothing is sent (there is no timeout) |
| JobLifecycle.RunWithOneTerminal | index.js:66-75 | if the engine emits exactly one terminal event, exactly one response is sent: after `end`, success with the output path; after `error`, 500 "Error processing audio." |
| JobLifecycle.TwoTerminalsReplyTwice | index.js:66-75 | nothing guards against a second terminal event: `end` then `error` sends two responses |
| JobLifecycle.SuccessScenario | index.js:53-70 | for file F, `start` then `end` yields Succeeded and one success reply carrying `<base>/processed/F-processed.wav` |
| JobLifecycle.Job.constructor | index.js:56-76 | a dispatched job is Running, has sent nothing and carries its request |
| JobLifecycle.Job.Handle | index.js:63-75 | delivering an event steps the phase and appends the handler's response, if any, to what was sent; the job stays equal to the run of all events so far |
| App.Server.constructor | index.js:17-19 | the server starts with both dictionaries empty |
| App.Server.Upload | index.js:27-42 | with no file: 400 and nothing changes; on a move failure: 500 with the error and nothing changes; on success: the fresh id is registered at its upload path, the reply carries it, and the progress store is untouched |
| App.Server.Process | index.js:45-78 | an unknown id gets an immediate 404 and no job; a known id starts a fresh Running job on the built request; its output path is no registered file's path |
| App.Server.PostProgress | index.js:100-112 | the store becomes `Post` of the old one; the reply carries the updated record; the registry is untouched |
| App.ClipScenario | index.js:27-70 | upload "clip.wav" as F, process it, and the engine emits start and end: the client gets success with `<base>/processed/F-processed.wav` |
| App.MissingFileScenario | index.js:45-50 | processing "nonexistent" is answered 404 and no job starts |
| App.ProgressScenario | index.js:93-112 | POST (u1, 2, 80), POST (u1, 3, 60), then GET u1 returns {5, 80} |

## Left out

- Express wiring is not modelled: middleware, static files, the home page route, `res.send`/`status`/`sendFile` and `app.listen` (index.js:10-15, 21-24, 125-129). Each route returns a `Response` value instead.
- Moving the uploaded file (`audioFile.mv`, index.js:36) is file I/O. Its outcome is the `moveError` parameter.
- Id generation (`uuidv4`, index.js:33) is the `fileId` parameter. A precondition says it is not already registered.
- `path.extname` and `path.join` (index.js:34, 53) are Node library calls. The extension is a parameter. Paths are plain concatenation with `/`, with no normalisation.
- The ffmpeg engine and its DSP (index.js:55-62) are not modelled. The filter graph, with its hard-coded 196.96 s noise duration, is an opaque string constant. The unused `duration` constant and the output being MP3-encoded under a `.wav` name are not analysed.
- Creating the `uploads` and `processed` directories (index.js:114-123) is filesystem I/O.
- Logging and the unused `wavesurfer.js` import (index.js:7, 64, 73) are left out. A `start` event therefore changes nothing.
- Concurrency is left out: interleaved requests, a request finishing between an upload and its move callback, and two jobs racing on one output path. The model is sequential.
- JavaScript coercions are left out. Levels and accuracy are integers, and `x || 0` is modelled on a missing-or-integer value. No string concatenation by `+=`, no NaN, no non-number accuracies.
- Dictionary keys are own keys only. Inherited `Object.prototype` names such as `__proto__` or `constructor` are not modelled. In the source, these would look registered. POST progress on them would write onto the inherited object instead of creating an entry: `Object.prototype` for `__proto__`, and the `Object` function for `constructor`, where both fields become NaN.
- A request that sends several `audio` parts, or a missing `fileId` in the body, is not modelled.
- A Pending phase is not modelled. The request is built and the engine started within the same synchronous handler call, so a job begins Running.
- JobLifecycle.RunWithOneTerminal: takes "the engine emits one terminal event" as a precondition. The source does not enforce it (see `TwoTerminalsReplyTwice`). What Express does with a second send is not modelled.
