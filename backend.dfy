/** What the handlers see of the messaging backend client and of the ffmpeg
    process: plain values standing for the replies of calls whose workings
    are outside the model. */
module Backend {

  import opened Outcomes

  /** The class of `msg.media`, as far as the handlers test it. */
  datatype MediaKind = NoMedia | PhotoMedia | DocumentMedia | OtherMedia

  /** `msg.document`, when the message carries one. */
  datatype DocumentInfo = DocumentInfo(mimeType: string)

  /** `msg.file`: the file view of the message's media, with the reported
      extension and MIME type. */
  datatype FileInfo = FileInfo(ext: Option<string>, mimeType: Option<string>)

  /** One backend message; `date` stands for the already formatted
      `msg.date.isoformat()`. */
  datatype Message = Message(
    id: int,
    senderId: Option<int>,
    date: string,
    text: Option<string>,
    media: MediaKind,
    document: Option<DocumentInfo>,
    file: Option<FileInfo>)

  /** One dialog of `iter_dialogs()`. `message` is `dialog.message`: `None`
      when the dialog has no message, otherwise that message's text, which is
      itself `None` for a message without text (a service message). */
  datatype Dialog = Dialog(id: int, name: string, entityType: string, message: Option<Option<string>>)

  /** What `msg.download_media(file=path)` did: wrote the file, found nothing
      to download, or raised (possibly leaving a partial file behind). */
  datatype Download = Saved | NothingSaved | DownloadFailed(reason: string, partial: bool)

  /** What `msg.download_media()` without a target did: the path it returned
      (which may be `None`) and whether it wrote a file at that path, or
      the exception it raised and the partial file it left under the name it
      had chosen, if any. A file already at that path stays either way. */
  datatype AutoDownload =
    | Returned(path: Option<string>, present: bool)
    | AutoDownloadFailed(reason: string, partial: Option<string>)

  /** One run of ffmpeg: its exit status and whether its output file exists afterwards. */
  datatype Conversion = Conversion(exitStatus: int, outputPresent: bool)

  /** The external steps a handler starts, in the order it starts them. */
  datatype Effect =
    | DownloadTo(target: string)
    | DownloadAuto
    | Convert(source: string, target: string)
    | SendVoiceNote(chat: int, path: string)
}
