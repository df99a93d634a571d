/** The media cache: which file name a photo or document is stored under,
    and the names of the voice upload buffer and its converted output. All
    live in one flat directory; the name is the only index. */
module Media {

  import opened Outcomes
  import opened Text
  import opened Backend

  const CacheDir: string := "media_cache/"
  const DefaultExtension: string := "bin"

  /** The MIME types whose extension is known when none is reported. */
  const KnownMimeTypes: map<string, string> :=
    map["audio/ogg" := "ogg", "audio/mpeg" := "mp3", "video/mp4" := "mp4"]

  /** Python's `s.lstrip(".")`. */
  function StripLeadingDots(s: string): (r: string)
    ensures |r| <= |s| && r == s[|s| - |r|..]
    ensures forall i :: 0 <= i < |s| - |r| ==> s[i] == '.'
    ensures r == [] || r[0] != '.'
  {
    if s != [] && s[0] == '.' then StripLeadingDots(s[1..]) else s
  }

  /** `msg.file` exists and reports a non-empty extension. */
  predicate HasReportedExt(file: Option<FileInfo>)
  {
    file.Some? && file.value.ext.Some? && file.value.ext.value != []
  }

  /** `msg.file` exists and its MIME type is one of the known ones. */
  predicate HasKnownMime(file: Option<FileInfo>)
  {
    file.Some? && file.value.mimeType.Some? && file.value.mimeType.value in KnownMimeTypes
  }

  /** The extension `get_document` gives the cached file: the reported
      extension without its leading dots wins; failing that, the MIME type
      is looked up; failing that, "bin". */
  function ResolveExtension(file: Option<FileInfo>): (ext: string)
    ensures HasReportedExt(file) ==> ext == StripLeadingDots(file.value.ext.value)
    ensures !HasReportedExt(file) && HasKnownMime(file) ==> ext == KnownMimeTypes[file.value.mimeType.value]
    ensures !HasReportedExt(file) && !HasKnownMime(file) ==> ext == DefaultExtension
  {
    var ext := DefaultExtension;
    if file.None? then ext
    else if file.value.ext.Some? && file.value.ext.value != [] then StripLeadingDots(file.value.ext.value)
    else if file.value.mimeType == Some("audio/ogg") then "ogg"
    else if file.value.mimeType == Some("audio/mpeg") then "mp3"
    else if file.value.mimeType == Some("video/mp4") then "mp4"
    else ext
  }

  /** The resolved extension is the stripped reported one, a known MIME
      type's extension, or "bin", and a reported extension is never
      overridden by the MIME type. */
  lemma ExtensionIsOneOfThree(file: Option<FileInfo>, otherMime: Option<string>)
    ensures var ext := ResolveExtension(file);
      (HasReportedExt(file) && ext == StripLeadingDots(file.value.ext.value))
      || ext in KnownMimeTypes.Values || ext == DefaultExtension
    ensures HasReportedExt(file) ==>
      ResolveExtension(Some(FileInfo(file.value.ext, otherMime))) == ResolveExtension(file)
  {
  }

  function PhotoPath(chat: int, message: int): (p: string)
    ensures CacheDir + "photo_" <= p
  {
    CacheDir + "photo_" + Decimal(chat) + "_" + Decimal(message) + ".jpg"
  }

  function DocumentPath(chat: int, message: int, ext: string): (p: string)
    ensures CacheDir + "doc_" <= p
  {
    CacheDir + "doc_" + Decimal(chat) + "_" + Decimal(message) + "." + ext
  }

  /** The upload buffer of `send_voice`. */
  function UploadPath(chat: int, filename: string): (p: string)
    ensures CacheDir + "upload_" <= p
  {
    CacheDir + "upload_" + Decimal(chat) + "_" + filename
  }

  /** The converted voice note of `send_voice`. */
  function VoicePath(chat: int): (p: string)
    ensures CacheDir + "voice_" <= p
  {
    CacheDir + "voice_" + Decimal(chat) + ".ogg"
  }

  /** Two photo paths are equal only for the same chat and message. */
  lemma PhotoPathInjective(chat1: int, message1: int, chat2: int, message2: int)
    requires PhotoPath(chat1, message1) == PhotoPath(chat2, message2)
    ensures chat1 == chat2 && message1 == message2
  {
    var p := CacheDir + "photo_";
    var d1, d2 := Decimal(chat1), Decimal(chat2);
    var e1, e2 := Decimal(message1), Decimal(message2);
    assert PhotoPath(chat1, message1) == p + (d1 + ['_'] + (e1 + ".jpg"));
    assert PhotoPath(chat2, message2) == p + (d2 + ['_'] + (e2 + ".jpg"));
    PrefixCancel(p, d1 + ['_'] + (e1 + ".jpg"), d2 + ['_'] + (e2 + ".jpg"));
    DecimalHasNoSeparator(chat1);
    DecimalHasNoSeparator(chat2);
    SplitAtFirst(d1, e1 + ".jpg", d2, e2 + ".jpg", '_');
    SuffixCancel(e1, e2, ".jpg");
    DecimalInjective(chat1, chat2);
    DecimalInjective(message1, message2);
  }

  /** Two document paths are equal only for the same chat, message and extension. */
  lemma DocumentPathInjective(chat1: int, message1: int, ext1: string,
                              chat2: int, message2: int, ext2: string)
    requires DocumentPath(chat1, message1, ext1) == DocumentPath(chat2, message2, ext2)
    ensures chat1 == chat2 && message1 == message2 && ext1 == ext2
  {
    var p := CacheDir + "doc_";
    var d1, d2 := Decimal(chat1), Decimal(chat2);
    var e1, e2 := Decimal(message1), Decimal(message2);
    assert DocumentPath(chat1, message1, ext1) == p + (d1 + ['_'] + (e1 + ['.'] + ext1));
    assert DocumentPath(chat2, message2, ext2) == p + (d2 + ['_'] + (e2 + ['.'] + ext2));
    PrefixCancel(p, d1 + ['_'] + (e1 + ['.'] + ext1), d2 + ['_'] + (e2 + ['.'] + ext2));
    DecimalHasNoSeparator(chat1);
    DecimalHasNoSeparator(chat2);
    DecimalHasNoSeparator(message1);
    DecimalHasNoSeparator(message2);
    SplitAtFirst(d1, e1 + ['.'] + ext1, d2, e2 + ['.'] + ext2, '_');
    SplitAtFirst(e1, ext1, e2, ext2, '.');
    DecimalInjective(chat1, chat2);
    DecimalInjective(message1, message2);
  }

  /** Two upload-buffer names are equal only for the same chat and file name. */
  lemma UploadPathInjective(chat1: int, filename1: string, chat2: int, filename2: string)
    requires UploadPath(chat1, filename1) == UploadPath(chat2, filename2)
    ensures chat1 == chat2 && filename1 == filename2
  {
    var p := CacheDir + "upload_";
    var d1, d2 := Decimal(chat1), Decimal(chat2);
    assert UploadPath(chat1, filename1) == p + (d1 + ['_'] + filename1);
    assert UploadPath(chat2, filename2) == p + (d2 + ['_'] + filename2);
    PrefixCancel(p, d1 + ['_'] + filename1, d2 + ['_'] + filename2);
    DecimalHasNoSeparator(chat1);
    DecimalHasNoSeparator(chat2);
    SplitAtFirst(d1, filename1, d2, filename2, '_');
    DecimalInjective(chat1, chat2);
  }

  /** Two voice-note names are equal only for the same chat. */
  lemma VoicePathInjective(chat1: int, chat2: int)
    requires VoicePath(chat1) == VoicePath(chat2)
    ensures chat1 == chat2
  {
    var p := CacheDir + "voice_";
    var d1, d2 := Decimal(chat1), Decimal(chat2);
    assert VoicePath(chat1) == p + (d1 + ".ogg");
    assert VoicePath(chat2) == p + (d2 + ".ogg");
    PrefixCancel(p, d1 + ".ogg", d2 + ".ogg");
    SuffixCancel(d1, d2, ".ogg");
    DecimalInjective(chat1, chat2);
  }

  /** Photo, document, upload-buffer and voice-note names never collide:
      they differ in the first character after the directory. */
  lemma CacheKindsDisjoint(chat: int, message: int, chat': int, message': int, ext: string, filename: string)
    ensures PhotoPath(chat, message) != DocumentPath(chat', message', ext)
    ensures PhotoPath(chat, message) != UploadPath(chat', filename)
    ensures PhotoPath(chat, message) != VoicePath(chat')
    ensures DocumentPath(chat, message, ext) != UploadPath(chat', filename)
    ensures DocumentPath(chat, message, ext) != VoicePath(chat')
    ensures UploadPath(chat, filename) != VoicePath(chat')
  {
    var k := |CacheDir|;
    assert PhotoPath(chat, message)[k] == 'p';
    assert DocumentPath(chat', message', ext)[k] == 'd';
    assert DocumentPath(chat, message, ext)[k] == 'd';
    assert UploadPath(chat', filename)[k] == 'u';
    assert UploadPath(chat, filename)[k] == 'u';
    assert VoicePath(chat')[k] == 'v';
  }
}
