/**
 * The request builder of POST /process: check that the file is registered and
 * assemble the engine invocation (input, filter graph, codec, bitrate, output).
 */
module Transform {
  import opened Wrappers
  import opened Records
  import opened FileRegistry

  /** Noise of a fixed 196.96 s mixed into the input; the shorter stream decides the length. */
  const FILTER_GRAPH := "anoisesrc=d=196.96:sample_rate=44100[noise];[0:a][noise]amix=inputs=2:duration=shortest"
  const OUTPUT_OPTIONS := ["-filter_complex", FILTER_GRAPH]
  const AUDIO_CODEC := "libmp3lame"
  /** In kbit/s. */
  const AUDIO_BITRATE := 192

  const PROCESSED_SUFFIX := "-processed.wav"

  /** One invocation of the audio engine. */
  datatype TransformRequest = TransformRequest(
    inputPath: string,
    outputOptions: seq<string>,
    audioCodec: string,
    audioBitrate: int,
    outputPath: string)

  function ProcessedDir(baseDir: string): string {
    baseDir + "/processed/"
  }

  /** Where the result for a file is written: `<base>/processed/<fileId>-processed.wav`. */
  function OutputPath(baseDir: string, fileId: FileId): string {
    ProcessedDir(baseDir) + fileId + PROCESSED_SUFFIX
  }

  /** The file id an output path was derived from, if it is one. */
  function ProcessedFileId(baseDir: string, path: string): Option<FileId> {
    var pre := ProcessedDir(baseDir);
    if |path| >= |pre| + |PROCESSED_SUFFIX| && path[..|pre|] == pre
       && path[|path| - |PROCESSED_SUFFIX|..] == PROCESSED_SUFFIX
    then Some(path[|pre|..|path| - |PROCESSED_SUFFIX|])
    else None
  }

  /**
   * The output path determines the file id and back: ProcessedFileId inverts
   * OutputPath, so two files never share an output path.
   */
  lemma OutputPathRoundTrip(baseDir: string, fileId: FileId, path: string)
    ensures ProcessedFileId(baseDir, OutputPath(baseDir, fileId)) == Some(fileId)
    ensures ProcessedFileId(baseDir, path) == Some(fileId) <==> path == OutputPath(baseDir, fileId)
  {
    var pre := ProcessedDir(baseDir);
    var out := OutputPath(baseDir, fileId);
    assert out[..|pre|] == pre;
    assert out[|out| - |PROCESSED_SUFFIX|..] == PROCESSED_SUFFIX;
    assert out[|pre|..|out| - |PROCESSED_SUFFIX|] == fileId;
    if ProcessedFileId(baseDir, path) == Some(fileId) {
      assert path == path[..|pre|] + path[|pre|..|path| - |PROCESSED_SUFFIX|] + path[|path| - |PROCESSED_SUFFIX|..];
    }
  }

  lemma OutputPathInjective(baseDir: string, f: FileId, g: FileId)
    ensures OutputPath(baseDir, f) == OutputPath(baseDir, g) <==> f == g
  {
    OutputPathRoundTrip(baseDir, f, OutputPath(baseDir, g));
  }

  /** An output path is never the path of a stored upload, so processing never overwrites its input. */
  lemma OutputIsNeverAnUpload(baseDir: string, files: Files, fileId: FileId, g: FileId)
    requires StoredUnderOwnId(baseDir, files) && g in files
    ensures OutputPath(baseDir, fileId) != files[g].path
  {
    var p := files[g].path;
    assert UploadStem(baseDir, g) <= p;
    assert p[|baseDir| + 1] == UploadStem(baseDir, g)[|baseDir| + 1] == 'u';
    assert OutputPath(baseDir, fileId)[|baseDir| + 1] == 'p';
  }

  /**
   * POST /process up to the engine call: 404 for an unregistered id, otherwise the
   * invocation on the stored file with the fixed settings. `noiseLevel` and
   * `volumeAdjustment` are read from the request and never used.
   */
  function Build(files: Files, baseDir: string, fileId: FileId, noiseLevel: real, volumeAdjustment: real)
    : (r: Result<TransformRequest, Response>)
    ensures r.Failure? <==> fileId !in files
    ensures r.Failure? ==> r.error == Response(404, Text(AUDIO_NOT_FOUND))
    ensures r.Success? ==>
              && r.value.inputPath == files[fileId].path
              && r.value.outputPath == OutputPath(baseDir, fileId)
    ensures r.Success? ==>
              && r.value.outputOptions == OUTPUT_OPTIONS
              && r.value.audioCodec == AUDIO_CODEC
              && r.value.audioBitrate == AUDIO_BITRATE
  {
    if fileId !in files then Failure(Response(404, Text(AUDIO_NOT_FOUND)))
    else Success(TransformRequest(files[fileId].path, OUTPUT_OPTIONS, AUDIO_CODEC, AUDIO_BITRATE,
                                  OutputPath(baseDir, fileId)))
  }

  /** The request does not depend on the noise level or the volume adjustment. */
  lemma BuildIgnoresTuning(files: Files, baseDir: string, fileId: FileId, n1: real, v1: real, n2: real, v2: real)
    ensures Build(files, baseDir, fileId, n1, v1) == Build(files, baseDir, fileId, n2, v2)
  {
  }
}
