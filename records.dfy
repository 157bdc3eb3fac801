/** The values the server keeps in its two dictionaries and the responses its routes send. */
module Records {

  type FileId = string
  type UserId = string

  /** An entry of `audioFiles`: where the upload was stored and the name the client gave it. */
  datatype FileRecord = FileRecord(path: string, originalName: string)

  /** An entry of `userSessions`. Levels and accuracy are JSON numbers, taken here as integers. */
  datatype UserProgress = UserProgress(levelsCompleted: int, accuracy: int)

  /** What `res.send` / `res.sendFile` put on the wire. */
  datatype Body =
    | Text(text: string)
    | MoveError(error: string)
    | Uploaded(fileId: FileId, message: string)
    | Processed(message: string, outputPath: string)
    | AudioFile(path: string)
    | ProgressUpdated(message: string, progress: UserProgress)

  /** An HTTP response: its status code (200 unless the handler set one) and its body. */
  datatype Response = Response(status: int, body: Body)

  const NO_AUDIO_UPLOADED := "No audio file uploaded."
  const FILE_UPLOADED := "File uploaded successfully."
  const AUDIO_NOT_FOUND := "Audio file not found."
  const AUDIO_PROCESSED := "Audio processed successfully."
  const PROCESSING_FAILED := "Error processing audio."
  const PROGRESS_UPDATED := "Progress updated successfully."
}
