/**
 * The server's module-level state, `userSessions` and `audioFiles`, and the routes
 * that change it or start work on it. GET /progress/:userId is ProgressStore.Get
 * and GET /waveform/:fileId is FileRegistry.Waveform, both read on these fields.
 */
module App {
  import opened Wrappers
  import opened Records
  import opened ProgressStore
  import opened FileRegistry
  import opened Transform
  import opened JobLifecycle

  class Server {
    /** The directory the server runs from (`__dirname`). */
    const baseDir: string
    var audioFiles: Files
    var userSessions: Sessions

    ghost predicate Valid()
      reads this
    {
      && StoredUnderOwnId(baseDir, audioFiles)
      && AccuracyNonNegative(userSessions)
    }

    constructor (baseDir: string)
      ensures Valid()
      ensures this.baseDir == baseDir && audioFiles == map[] && userSessions == map[]
    {
      this.baseDir := baseDir;
      audioFiles := map[];
      userSessions := map[];
    }

    /**
     * POST /upload. `audio` is the name of the uploaded `audio` part, None when the
     * request has none; `fileId` is the fresh id the generator returned,
     * `extension` the name's extension, and `moveError` the error the move to the
     * uploads directory reported, None when it succeeded.
     */
    method Upload(audio: Option<string>, fileId: FileId, extension: string, moveError: Option<string>)
      returns (r: Response)
      requires Valid()
      requires fileId !in audioFiles
      modifies this
      ensures Valid() && userSessions == old(userSessions)
      ensures audio.None? ==> r == Response(400, Text(NO_AUDIO_UPLOADED)) && audioFiles == old(audioFiles)
      ensures audio.Some? && moveError.Some? ==>
                && r == Response(500, MoveError(moveError.value))
                && audioFiles == old(audioFiles)
      ensures audio.Some? && moveError.None? ==>
                && r == Response(200, Uploaded(fileId, FILE_UPLOADED))
                && audioFiles == Register(old(audioFiles), fileId, UploadPath(baseDir, fileId, extension), audio.value)
    {
      if audio.None? {
        return Response(400, Text(NO_AUDIO_UPLOADED));
      }
      var uploadPath := UploadPath(baseDir, fileId, extension);
      if moveError.Some? {
        return Response(500, MoveError(moveError.value));
      }
      RegisterKeepsStoredUnderOwnId(baseDir, audioFiles, fileId, extension, audio.value);
      audioFiles := audioFiles[fileId := FileRecord(uploadPath, audio.value)];
      r := Response(200, Uploaded(fileId, FILE_UPLOADED));
    }

    /**
     * POST /process. An unregistered id is answered 404 at once and no engine is
     * started; otherwise the engine is invoked on the built request and the answer
     * is left to the returned job's event handlers.
     */
    method Process(fileId: FileId, noiseLevel: real, volumeAdjustment: real)
      returns (notFound: Option<Response>, job: Job?)
      requires Valid()
      ensures Build(audioFiles, baseDir, fileId, noiseLevel, volumeAdjustment).Failure? ==>
                notFound == Some(Response(404, Text(AUDIO_NOT_FOUND))) && job == null
      ensures Build(audioFiles, baseDir, fileId, noiseLevel, volumeAdjustment).Success? ==>
                && notFound.None? && job != null && fresh(job) && job.Valid()
                && job.request == Build(audioFiles, baseDir, fileId, noiseLevel, volumeAdjustment).value
                && job.phase == Running && job.replies == [] && job.events == []
      ensures job != null ==> forall g :: g in audioFiles ==> job.request.outputPath != audioFiles[g].path
    {
      if fileId !in audioFiles {
        return Some(Response(404, Text(AUDIO_NOT_FOUND))), null;
      }
      var inputPath := audioFiles[fileId].path;
      var outputPath := OutputPath(baseDir, fileId);
      var request := TransformRequest(inputPath, OUTPUT_OPTIONS, AUDIO_CODEC, AUDIO_BITRATE, outputPath);
      forall g | g in audioFiles
        ensures outputPath != audioFiles[g].path
      {
        OutputIsNeverAnUpload(baseDir, audioFiles, fileId, g);
      }
      notFound := None;
      job := new Job(request);
    }

    /**
     * POST /progress/:userId: create the entry if missing, add the level delta,
     * keep the larger accuracy, and answer with the updated record.
     */
    method PostProgress(userId: UserId, levelsCompleted: Option<int>, accuracy: Option<int>)
      returns (r: Response)
      requires Valid()
      modifies this
      ensures Valid() && audioFiles == old(audioFiles)
      ensures userSessions == Post(old(userSessions), userId, levelsCompleted, accuracy)
      ensures r == Response(200, ProgressUpdated(PROGRESS_UPDATED, userSessions[userId]))
    {
      ghost var before := userSessions;
      PostKeepsAccuracyNonNegative(before, userId, levelsCompleted, accuracy);
      if userId !in userSessions {
        userSessions := userSessions[userId := UserProgress(0, 0)];
      }
      var entry := userSessions[userId];
      assert entry == Get(before, userId);
      entry := entry.(levelsCompleted := entry.levelsCompleted + OrZero(levelsCompleted));
      entry := entry.(accuracy := Max(entry.accuracy, OrZero(accuracy)));
      userSessions := userSessions[userId := entry];
      assert userSessions == before[userId := entry];
      r := Response(200, ProgressUpdated(PROGRESS_UPDATED, userSessions[userId]));
    }
  }

  /** Upload "clip.wav" as F, process it, the engine starts and ends: the client gets the output path. */
  method ClipScenario(baseDir: string) returns (reply: Option<Response>)
    ensures reply == Some(Response(200, Processed(AUDIO_PROCESSED, baseDir + "/processed/F-processed.wav")))
  {
    var out := OutputPath(baseDir, "F");
    assert out == baseDir + "/processed/F-processed.wav";
    var server := new Server(baseDir);
    var uploaded := server.Upload(Some("clip.wav"), "F", ".wav", None);
    assert Build(server.audioFiles, baseDir, "F", 0.3, 1.0).Success?;
    var notFound, job := server.Process("F", 0.3, 1.0);
    assert job.request.outputPath == out;
    var started := job.Handle(Start("ffmpeg"));
    reply := job.Handle(End);
  }

  /** Processing an id nobody uploaded is answered 404 and starts no job. */
  method MissingFileScenario(baseDir: string) returns (notFound: Option<Response>, started: bool)
    ensures notFound == Some(Response(404, Text(AUDIO_NOT_FOUND))) && !started
  {
    var server := new Server(baseDir);
    var job;
    notFound, job := server.Process("nonexistent", 0.3, 1.0);
    started := job != null;
  }

  /** (u1, 2, 80) then (u1, 3, 60), then GET for u1: {5, 80}. */
  method ProgressScenario() returns (progress: UserProgress)
    ensures progress == UserProgress(5, 80)
  {
    var server := new Server("");
    var first := server.PostProgress("u1", Some(2), Some(80));
    var second := server.PostProgress("u1", Some(3), Some(60));
    progress := Get(server.userSessions, "u1");
  }
}
