/**
 * The file registry: `audioFiles`, a dictionary from a file id to where the upload
 * was stored. POST /upload inserts into it; GET /waveform/:fileId reads it.
 */
module FileRegistry {
  import opened Records

  type Files = map<FileId, FileRecord>

  /** The upload path without its extension: `<base>/uploads/<fileId>`. */
  function UploadStem(baseDir: string, fileId: FileId): string {
    baseDir + "/uploads/" + fileId
  }

  /** Where an upload is moved: `<base>/uploads/<fileId><extension>`. */
  function UploadPath(baseDir: string, fileId: FileId, extension: string): (p: string)
    ensures UploadStem(baseDir, fileId) <= p
  {
    UploadStem(baseDir, fileId) + extension
  }

  /** The registry after a successful upload: exactly one new binding. */
  function Register(files: Files, fileId: FileId, path: string, originalName: string): (f': Files)
    requires fileId !in files
    ensures f'.Keys == files.Keys + {fileId}
    ensures f'[fileId] == FileRecord(path, originalName)
    ensures forall g :: g in files ==> g in f' && f'[g] == files[g]
  {
    files[fileId := FileRecord(path, originalName)]
  }

  /** Every registered file was stored under its own id in the uploads directory. */
  ghost predicate StoredUnderOwnId(baseDir: string, files: Files) {
    forall g :: g in files ==> UploadStem(baseDir, g) <= files[g].path
  }

  lemma RegisterKeepsStoredUnderOwnId(baseDir: string, files: Files, fileId: FileId, extension: string, name: string)
    requires StoredUnderOwnId(baseDir, files) && fileId !in files
    ensures StoredUnderOwnId(baseDir, Register(files, fileId, UploadPath(baseDir, fileId, extension), name))
  {
  }

  /** GET /waveform/:fileId: the stored file for a registered id, 404 otherwise. */
  function Waveform(files: Files, fileId: FileId): (r: Response)
    ensures r.status == 200 <==> fileId in files
    ensures fileId in files ==> r.body == AudioFile(files[fileId].path)
    ensures fileId !in files ==> r == Response(404, Text(AUDIO_NOT_FOUND))
  {
    if fileId !in files then Response(404, Text(AUDIO_NOT_FOUND))
    else Response(200, AudioFile(files[fileId].path))
  }

  /** An uploaded file is served back from exactly the path it was stored at. */
  lemma WaveformAfterRegister(files: Files, fileId: FileId, path: string, name: string, other: FileId)
    requires fileId !in files
    ensures Waveform(Register(files, fileId, path, name), fileId) == Response(200, AudioFile(path))
    ensures other != fileId ==> Waveform(Register(files, fileId, path, name), other) == Waveform(files, other)
  {
  }
}
