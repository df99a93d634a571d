/** The request handlers of the gateway over one piece of state: the set of
    paths that exist on disk, and the log of external steps started. */
module Handlers {

  import opened Outcomes
  import opened Text
  import opened Auth
  import opened Backend
  import opened Media

  /** One entry of the `/chats` reply. */
  datatype ChatItem = ChatItem(id: int, name: string, kind: string, lastMessage: Option<string>)

  /** One entry of the `/messages` reply. */
  datatype MessageItem = MessageItem(
    id: int,
    senderId: Option<int>,
    date: string,
    text: Option<string>,
    hasPhoto: bool,
    hasDocument: bool,
    mimeType: Option<string>)

  /** A file streamed back: its path, media type and offered download name. */
  datatype FileReply = FileReply(path: string, mediaType: string, filename: Option<string>)

  const MediaNotFoundDetail: string := "Media not found"
  const NoVoiceDetail: string := "No voice message found"
  const VoiceDownloadDetail: string := "Failed to download voice message"
  const AudioNotCreatedDetail: string := "Failed to create audio file"
  const ConversionFailedDetail: string := "FFmpeg conversion failed"
  const NoFileInfoText: string := "AttributeError: 'NoneType' object has no attribute 'mime_type'"
  const FfmpegErrorText: string := "ffmpeg.Error: ffmpeg error (see stderr output for detail)"
  const OctetStream: string := "application/octet-stream"

  /** The `/chats` entry of one dialog: "" stands for a missing last
      message, and a last message without text gives `None` (JSON `null`). */
  function ChatOf(d: Dialog): (c: ChatItem)
    ensures c.id == d.id && c.name == d.name && c.kind == d.entityType
    ensures d.message.None? ==> c.lastMessage == Some("")
    ensures d.message.Some? ==> c.lastMessage == d.message.value
    ensures c.lastMessage.None? <==> d.message == Some(None)
  {
    ChatItem(d.id, d.name, d.entityType, if d.message.Some? then d.message.value else Some(""))
  }

  /** The `/messages` entry of one message; a message carries one kind of
      media, so it never reports both a photo and a document. */
  function ItemOf(m: Message): (item: MessageItem)
    ensures !(item.hasPhoto && item.hasDocument)
    ensures item.id == m.id && item.senderId == m.senderId && item.text == m.text
  {
    MessageItem(m.id, m.senderId, m.date, m.text,
      m.media == PhotoMedia, m.media == DocumentMedia,
      if m.document.Some? then Some(m.document.value.mimeType) else None)
  }

  /** The message was found and has media (`msg and msg.media`). */
  predicate HasMedia(found: Option<Message>)
  {
    found.Some? && found.value.media != NoMedia
  }

  /** The message was found and has a document (`msg and msg.document`). */
  predicate HasDocument(found: Option<Message>)
  {
    found.Some? && found.value.document.Some?
  }

  /** A download that leaves a file at its target, complete or partial. */
  predicate LeavesFile(d: Download)
  {
    d.Saved? || (d.DownloadFailed? && d.partial)
  }

  /** The files on disk after `download_media(file=target)`. */
  function AfterDownload(files: set<string>, target: string, d: Download): set<string>
  {
    if LeavesFile(d) then files + {target} else files
  }

  /** The files on disk after `download_media()` chose its own name: the
      written file, complete or partial, is added; nothing is removed. */
  function AfterAutoDownload(files: set<string>, d: AutoDownload): set<string>
  {
    match d
    case Returned(path, present) => if path.Some? && present then files + {path.value} else files
    case AutoDownloadFailed(_, partial) => if partial.Some? then files + {partial.value} else files
  }

  /** The files on disk after one ffmpeg run writing `output`. */
  function AfterConversion(files: set<string>, output: string, c: Conversion): set<string>
  {
    if c.outputPresent then files + {output} else files - {output}
  }

  /** `send_voice` gives up when ffmpeg exits non-zero or leaves no output. */
  predicate ConversionFailed(c: Conversion)
  {
    c.exitStatus != 0 || !c.outputPresent
  }

  /** A `FileResponse`: a path that does not exist fails when it is streamed. */
  function Serve(files: set<string>, path: string, mediaType: string, filename: Option<string>): (r: Result<FileReply>)
    ensures r.Ok? <==> path in files
    ensures r.Ok? ==> r.value == FileReply(path, mediaType, filename)
    ensures r.Err? ==> r.error.Unhandled?
  {
    if path in files then Ok(FileReply(path, mediaType, filename))
    else Err(Unhandled("RuntimeError: File at path " + path + " does not exist."))
  }

  /** The media type `get_document` answers with: the reported one, or the generic binary type. */
  function DocumentMediaType(f: FileInfo): (t: string)
    ensures t != []
    ensures t == OctetStream || f.mimeType == Some(t)
    ensures f.mimeType.Some? && f.mimeType.value != [] ==> t == f.mimeType.value
  {
    if f.mimeType.Some? && f.mimeType.value != [] then f.mimeType.value else OctetStream
  }

  class Gateway {
    /** The configured token; `None` when the environment does not set it. */
    const secret: Option<string>
    /** The paths that exist on disk. */
    var files: set<string>
    /** The external steps started so far, oldest first. */
    var effects: seq<Effect>

    constructor (secret: Option<string>, existing: set<string>)
      ensures this.secret == secret && files == existing && effects == []
    {
      this.secret := secret;
      files := existing;
      effects := [];
    }

    /** `GET /chats`: one entry per dialog, in the backend's order. */
    method GetChats(authorization: Option<string>, dialogs: Rpc<seq<Dialog>>) returns (r: Result<seq<ChatItem>>)
      ensures VerifyToken(authorization, secret).Reject? ==> r == Err(VerifyToken(authorization, secret).failure)
      ensures VerifyToken(authorization, secret).Pass? && dialogs.Raised? ==> r == Err(Unhandled(dialogs.reason))
      ensures VerifyToken(authorization, secret).Pass? && dialogs.Replied? ==>
        r.Ok? && |r.value| == |dialogs.value|
        && forall i :: 0 <= i < |r.value| ==> r.value[i] == ChatOf(dialogs.value[i])
    {
      var gate := VerifyToken(authorization, secret);
      if gate.Reject? {
        return Err(gate.failure);
      }
      if dialogs.Raised? {
        return Err(Unhandled(dialogs.reason));
      }
      var chats: seq<ChatItem> := [];
      var i := 0;
      while i < |dialogs.value|
        invariant 0 <= i <= |dialogs.value|
        invariant |chats| == i
        invariant forall k :: 0 <= k < i ==> chats[k] == ChatOf(dialogs.value[k])
      {
        chats := chats + [ChatOf(dialogs.value[i])];
        i := i + 1;
      }
      return Ok(chats);
    }

    /** `GET /messages`: one entry per fetched message, newest last, i.e. in
        the reverse of the backend's newest-first order. */
    method GetMessages(authorization: Option<string>, fetched: Rpc<seq<Message>>) returns (r: Result<seq<MessageItem>>)
      ensures VerifyToken(authorization, secret).Reject? ==> r == Err(VerifyToken(authorization, secret).failure)
      ensures VerifyToken(authorization, secret).Pass? && fetched.Raised? ==> r == Err(Unhandled(fetched.reason))
      ensures VerifyToken(authorization, secret).Pass? && fetched.Replied? ==>
        r.Ok? && |r.value| == |fetched.value|
        && forall i :: 0 <= i < |r.value| ==> r.value[i] == ItemOf(fetched.value[|fetched.value| - 1 - i])
      ensures r.Ok? ==> forall i :: 0 <= i < |r.value| ==> !(r.value[i].hasPhoto && r.value[i].hasDocument)
    {
      var gate := VerifyToken(authorization, secret);
      if gate.Reject? {
        return Err(gate.failure);
      }
      if fetched.Raised? {
        return Err(Unhandled(fetched.reason));
      }
      var messages := fetched.value;
      var items: seq<MessageItem> := [];
      var i := |messages|;
      while i > 0
        invariant 0 <= i <= |messages|
        invariant |items| == |messages| - i
        invariant forall k :: 0 <= k < |items| ==> items[k] == ItemOf(messages[|messages| - 1 - k])
      {
        i := i - 1;
        items := items + [ItemOf(messages[i])];
      }
      return Ok(items);
    }

    /** The cache step: a path that exists is served as it is; otherwise one
        download into exactly that path is started. No file is ever removed. */
    method FetchOrDownload(path: string, download: Download) returns (failure: Option<Failure>)
      modifies this
      ensures path in old(files) ==> files == old(files) && effects == old(effects) && failure == None
      ensures path !in old(files) ==>
        files == AfterDownload(old(files), path, download)
        && effects == old(effects) + [DownloadTo(path)]
        && failure == if download.DownloadFailed? then Some(Unhandled(download.reason)) else None
      ensures old(files) <= files
    {
      if path in files {
        return None;
      }
      effects := effects + [DownloadTo(path)];
      files := AfterDownload(files, path, download);
      if download.DownloadFailed? {
        return Some(Unhandled(download.reason));
      }
      return None;
    }

    /** `GET /media/photo`. */
    method GetPhoto(authorization: Option<string>, chat: int, message: int,
                    lookup: Rpc<Option<Message>>, download: Download) returns (r: Result<FileReply>)
      modifies this
      ensures VerifyToken(authorization, secret).Reject? ==>
        r == Err(VerifyToken(authorization, secret).failure) && files == old(files) && effects == old(effects)
      ensures VerifyToken(authorization, secret).Pass? && lookup.Raised? ==>
        r == Err(Unhandled(lookup.reason)) && files == old(files) && effects == old(effects)
      ensures VerifyToken(authorization, secret).Pass? && lookup.Replied? && !HasMedia(lookup.value) ==>
        r == Err(HttpError(404, MediaNotFoundDetail)) && files == old(files) && effects == old(effects)
      ensures VerifyToken(authorization, secret).Pass? && lookup.Replied? && HasMedia(lookup.value) ==>
        var path := PhotoPath(chat, message);
        && (path in old(files) ==> files == old(files) && effects == old(effects) && r == Ok(FileReply(path, "image/jpeg", None)))
        && (path !in old(files) ==>
              files == AfterDownload(old(files), path, download)
              && effects == old(effects) + [DownloadTo(path)]
              && r == if download.DownloadFailed? then Err(Unhandled(download.reason))
                      else Serve(files, path, "image/jpeg", None))
    {
      var gate := VerifyToken(authorization, secret);
      if gate.Reject? {
        return Err(gate.failure);
      }
      if lookup.Raised? {
        return Err(Unhandled(lookup.reason));
      }
      if !HasMedia(lookup.value) {
        return Err(HttpError(404, MediaNotFoundDetail));
      }
      var path := PhotoPath(chat, message);
      var failure := FetchOrDownload(path, download);
      if failure.Some? {
        return Err(failure.value);
      }
      return Serve(files, path, "image/jpeg", None);
    }

    /** `GET /media/document`. */
    method GetDocument(authorization: Option<string>, chat: int, message: int,
                       lookup: Rpc<Option<Message>>, download: Download) returns (r: Result<FileReply>)
      modifies this
      ensures VerifyToken(authorization, secret).Reject? ==>
        r == Err(VerifyToken(authorization, secret).failure) && files == old(files) && effects == old(effects)
      ensures VerifyToken(authorization, secret).Pass? && lookup.Raised? ==>
        r == Err(Unhandled(lookup.reason)) && files == old(files) && effects == old(effects)
      ensures VerifyToken(authorization, secret).Pass? && lookup.Replied? && !HasMedia(lookup.value) ==>
        r == Err(HttpError(404, MediaNotFoundDetail)) && files == old(files) && effects == old(effects)
      ensures VerifyToken(authorization, secret).Pass? && lookup.Replied? && HasMedia(lookup.value) ==>
        var file := lookup.value.value.file;
        var path := DocumentPath(chat, message, ResolveExtension(file));
        && (path in old(files) ==> files == old(files) && effects == old(effects))
        && (path !in old(files) ==>
              files == AfterDownload(old(files), path, download)
              && effects == old(effects) + [DownloadTo(path)])
        && r == if path !in old(files) && download.DownloadFailed? then Err(Unhandled(download.reason))
                else if file.None? then Err(Unhandled(NoFileInfoText))
                else Serve(files, path, DocumentMediaType(file.value), None)
    {
      var gate := VerifyToken(authorization, secret);
      if gate.Reject? {
        return Err(gate.failure);
      }
      if lookup.Raised? {
        return Err(Unhandled(lookup.reason));
      }
      if !HasMedia(lookup.value) {
        return Err(HttpError(404, MediaNotFoundDetail));
      }
      var msg := lookup.value.value;
      var path := DocumentPath(chat, message, ResolveExtension(msg.file));
      var failure := FetchOrDownload(path, download);
      if failure.Some? {
        return Err(failure.value);
      }
      if msg.file.None? {
        return Err(Unhandled(NoFileInfoText));
      }
      return Serve(files, path, DocumentMediaType(msg.file.value), None);
    }

    /** `GET /media/voice`: download the voice message under a name the
        backend client chooses, convert it to AAC in MP4 beside it, serve that. */
    method GetVoice(authorization: Option<string>, chat: int, message: int,
                    lookup: Rpc<Option<Message>>, download: AutoDownload, convert: Conversion)
      returns (r: Result<FileReply>)
      modifies this
      ensures VerifyToken(authorization, secret).Reject? ==>
        r == Err(VerifyToken(authorization, secret).failure) && files == old(files) && effects == old(effects)
      ensures VerifyToken(authorization, secret).Pass? && lookup.Raised? ==>
        r == Err(Unhandled(lookup.reason)) && files == old(files) && effects == old(effects)
      ensures VerifyToken(authorization, secret).Pass? && lookup.Replied? && !HasDocument(lookup.value) ==>
        r == Err(HttpError(404, NoVoiceDetail)) && files == old(files) && effects == old(effects)
      ensures VerifyToken(authorization, secret).Pass? && lookup.Replied? && HasDocument(lookup.value) ==>
        && (download.AutoDownloadFailed? ==>
              r == Err(Unhandled(download.reason))
              && files == AfterAutoDownload(old(files), download)
              && effects == old(effects) + [DownloadAuto])
        && (download.Returned? ==>
              var downloaded := AfterAutoDownload(old(files), download);
              if download.path.None? || download.path.value == [] || download.path.value !in downloaded then
                r == Err(HttpError(500, VoiceDownloadDetail))
                && files == downloaded && effects == old(effects) + [DownloadAuto]
              else
                var source := download.path.value;
                var target := source + ".m4a";
                && files == AfterConversion(downloaded, target, convert)
                && effects == old(effects) + [DownloadAuto, Convert(source, target)]
                && r == if convert.exitStatus != 0 then Err(Unhandled(FfmpegErrorText))
                        else if target !in files then Err(HttpError(500, AudioNotCreatedDetail))
                        else Ok(FileReply(target, "audio/mp4", Some("voice_" + Decimal(message) + ".m4a"))))
      ensures VerifyToken(authorization, secret).Pass? && lookup.Replied? && HasDocument(lookup.value) && r.Err? ==>
        StatusCode(r.error) == 500
    {
      var gate := VerifyToken(authorization, secret);
      if gate.Reject? {
        return Err(gate.failure);
      }
      if lookup.Raised? {
        return Err(Unhandled(lookup.reason));
      }
      if !HasDocument(lookup.value) {
        return Err(HttpError(404, NoVoiceDetail));
      }
      effects := effects + [DownloadAuto];
      files := AfterAutoDownload(files, download);
      if download.AutoDownloadFailed? {
        return Err(Unhandled(download.reason));
      }
      if download.path.None? || download.path.value == [] || download.path.value !in files {
        return Err(HttpError(500, VoiceDownloadDetail));
      }
      var source := download.path.value;
      var target := source + ".m4a";
      effects := effects + [Convert(source, target)];
      files := AfterConversion(files, target, convert);
      if convert.exitStatus != 0 {
        return Err(Unhandled(FfmpegErrorText));
      }
      if target !in files {
        return Err(HttpError(500, AudioNotCreatedDetail));
      }
      return Ok(FileReply(target, "audio/mp4", Some("voice_" + Decimal(message) + ".m4a")));
    }

    /** `POST /send_voice`: write the upload buffer, convert it to an Opus
        voice note, send that, and remove both files whatever the send did.
        On a failed conversion only the upload buffer is removed. */
    method SendVoice(authorization: Option<string>, chat: int, filename: string,
                     convert: Conversion, send: Rpc<int>) returns (r: Result<int>)
      modifies this
      ensures VerifyToken(authorization, secret).Reject? ==>
        r == Err(VerifyToken(authorization, secret).failure) && files == old(files) && effects == old(effects)
      ensures VerifyToken(authorization, secret).Pass? ==>
        var input := UploadPath(chat, filename);
        var output := VoicePath(chat);
        var converted := AfterConversion(old(files) + {input}, output, convert);
        if ConversionFailed(convert) then
          r == Err(HttpError(500, ConversionFailedDetail))
          && files == converted - {input}
          && effects == old(effects) + [Convert(input, output)]
        else
          files == converted - {input, output}
          && effects == old(effects) + [Convert(input, output), SendVoiceNote(chat, output)]
          && r == if send.Replied? then Ok(send.value) else Err(HttpError(500, send.reason))
      ensures VerifyToken(authorization, secret).Pass? ==> UploadPath(chat, filename) !in files
      ensures VerifyToken(authorization, secret).Pass? && !ConversionFailed(convert) ==>
        VoicePath(chat) !in files && files == old(files) - {UploadPath(chat, filename), VoicePath(chat)}
      ensures VerifyToken(authorization, secret).Pass? && ConversionFailed(convert) ==>
        (VoicePath(chat) in files <==> convert.outputPresent)
    {
      var gate := VerifyToken(authorization, secret);
      if gate.Reject? {
        return Err(gate.failure);
      }
      var input := UploadPath(chat, filename);
      files := files + {input};
      var output := VoicePath(chat);
      effects := effects + [Convert(input, output)];
      files := AfterConversion(files, output, convert);
      CacheKindsDisjoint(chat, 0, chat, 0, "", filename);
      if convert.exitStatus != 0 || output !in files {
        files := files - {input};
        return Err(HttpError(500, ConversionFailedDetail));
      }
      effects := effects + [SendVoiceNote(chat, output)];
      if send.Replied? {
        r := Ok(send.value);
      } else {
        r := Err(HttpError(500, send.reason));
      }
      files := files - {input, output};
    }

    /** Two fetches of one cache path in a row. A first download that leaves
        a file (complete or partial) makes the second fetch a cache hit; one
        that leaves nothing makes the second fetch download again. */
    method FetchTwice(path: string, first: Download, second: Download)
      modifies this
      ensures path in old(files) ==> files == old(files) && effects == old(effects)
      ensures path !in old(files) && LeavesFile(first) ==>
        files == old(files) + {path} && effects == old(effects) + [DownloadTo(path)]
      ensures path !in old(files) && !LeavesFile(first) ==>
        files == AfterDownload(old(files), path, second)
        && effects == old(effects) + [DownloadTo(path), DownloadTo(path)]
    {
      var one := FetchOrDownload(path, first);
      var two := FetchOrDownload(path, second);
    }
  }
}
