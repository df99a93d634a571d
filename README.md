# watchos-telegram-server — a Dafny model of the gateway's request logic

The server is a small HTTP gateway in front of one Telegram client session.
Every endpoint first checks a bearer token. Two endpoints fetch photos and
documents into a flat cache directory on disk (`media_cache/`). A third fetches
a voice message to wherever the Telegram client chooses to save it, and
converts it to AAC-in-MP4 beside that file. One endpoint accepts an
uploaded audio file, converts it to an Opus voice note with ffmpeg, sends it,
and cleans up. Two endpoints list chats and recent messages.

This project models that request-level logic in `main.py`:

- `Auth` — `verify_token` as a function over the optional header and the
  optional configured secret, with Python's `str.split()` (module `Text`).
  It has four outcomes: 401, 403, pass, and the `IndexError` that a header of
  `"Bearer "` followed only by whitespace raises. The framework answers that
  error with 500.
- `Media` — the document extension chain (the reported extension without its
  leading dots, then a three-entry MIME table, then `bin`), and the cache file
  names. Names are built from Python's `str(int)` for the chat and message ids
  (module `Text`, proved to round-trip). The result: photo, document, upload
  buffer and voice-note names never collide, and each of the four families is
  injective on flat names.
- `Handlers.Gateway` — a class whose state is the set of paths that exist on
  disk (`files`) and the log of external steps started (`effects`: downloads,
  ffmpeg runs, sends). It has one method per handler: `GetChats` and
  `GetMessages` (append loops), `GetPhoto`, `GetDocument`, `GetVoice` and
  `SendVoice`. `FetchOrDownload` is the check-then-download step that
  `get_photo` and `get_document` share.

The Telegram calls and the ffmpeg runs are parameters of each method. The
parameters are values of datatypes in `Backend`:
- an RPC reply, or the exception it raised;
- what a download did (saved, nothing saved, or raised, possibly leaving a
  partial file);
- an ffmpeg run (its exit status, and whether its output file exists
  afterwards).

Failures are `HttpError(status, detail)` for the `HTTPException`s the handlers
raise. Every other exception is `Unhandled(reason)`, which the framework turns
into a 500.

Behaviour of the code that is easy to miss. In each case the model follows the code:
- A reported file extension takes precedence over the MIME table
  (main.py:124-132). It is not the other way round.
- A header `"Bearer "` followed only by whitespace is not a 401. `split()[1]`
  raises `IndexError` (main.py:33).
- On a failed outbound conversion only the upload buffer is removed. An output
  file that ffmpeg left behind stays (main.py:170-172).
- In `get_voice`, a non-zero ffmpeg exit raises `ffmpeg.Error` from `.run()`.
  This is an unhandled 500. It is not the "Failed to create audio file" answer,
  which covers only a zero exit with no output (main.py:213-222).
- The code never removes a failed download (main.py:109, main.py:137). A
  partial file is served as a cache hit on the next request.
- In `get_document`, a message with media but without `msg.file` gets
  extension `bin` and goes through the cache step. Unless that step's
  download raises, `msg.file.mime_type` then raises `AttributeError`
  (main.py:136-139).
- In `/chats`, a dialog without a message gets `""` as its last message, but
  a last message without text (a service message) gets `null`
  (main.py:63).
- The secret is compared with the second field of the header. So an unset,
  empty or multi-word `API_SECRET` can never be matched (main.py:14, 33-35).

## Model

| member | source | states |
|---|---|---|
| Text.WordLength | main.py:33 | the leading run of non-whitespace has no whitespace and is followed by whitespace or the end of the string |
| Text.FieldsAreWords | main.py:33 | every field of `split()` is non-empty and free of whitespace |
| Text.FieldsEmptyIffBlank | main.py:33 | `split()` yields no field exactly when the string is all whitespace |
| Text.FirstFieldIsFirstWord | main.py:33 | in a non-blank string, the first field is the first run of non-whitespace after the leading whitespace |
| Text.FieldsAfterBlank | main.py:33 | leading whitespace does not change the fields |
| Text.FieldsOfWordThen | main.py:33 | a word followed by whitespace or the end is the first field, and the rest splits on its own |
| Text.Fields | main.py:33 | Python's `split()`: maximal whitespace-free runs in order; an all-whitespace string has none (FieldsAreWords, FieldsEmptyIffBlank, FirstFieldIsFirstWord characterize it) |
| Text.NatDecimal | main.py:106 | `str(n)` of a non-negative int is a non-empty string of digits that starts with `0` only for 0 itself, which is written "0" |
| Text.Decimal | main.py:106 | `str(n)` consists of digits and a sign only |
| Text.DecimalRoundTrip | main.py:106 | reading back `str(n)` gives n |
| Text.DecimalInjective | main.py:134 | distinct ints have distinct decimal forms |
| Text.DecimalHasNoSeparator | main.py:106 | a decimal int contains neither `_` nor `.` |
| Auth.VerifyToken | main.py:29-35 | the gate: the only failures are 401 "Missing Authorization header", 403 "Invalid token" and the IndexError crash, and a pass needs a configured secret and the "Bearer " prefix (MissingOrMalformedIs401, BlankTokenCrashes, TokenDecides characterize each outcome) |
| Auth.BearerFields | main.py:30-33 | a header starting with "Bearer " splits into "Bearer" followed by the fields of the rest |
| Auth.MissingOrMalformedIs401 | main.py:30-31 | the outcome is 401 "Missing Authorization header" if and only if the header is absent or does not start, case-sensitively, with "Bearer " |
| Auth.BlankTokenCrashes | main.py:30-33 | the outcome is the IndexError crash if and only if the header starts with "Bearer " and the rest is all whitespace |
| Auth.TokenDecides | main.py:33-35 | otherwise the token is the first word after "Bearer ", and the header passes if it equals the secret, else 403 "Invalid token" |
| Auth.DelimitedTokenDecides | main.py:33-35 | "Bearer ", any whitespace, a one-word token, then nothing or whitespace and anything: only the token decides between pass and 403 |
| Auth.ExtraFieldsIgnored | main.py:33-35 | words after the token do not change the outcome |
| Auth.SecretTokenPasses | main.py:33-35 | "Bearer <secret>" passes when the secret is one non-empty word |
| Auth.UnsplittableSecretNeverPasses | main.py:33-35 | with the secret unset, empty or containing whitespace, no header passes |
| Media.StripLeadingDots | main.py:126 | `lstrip(".")` removes exactly the leading dots: the result is a suffix, the removed part is all dots, and the result does not start with a dot |
| Media.ResolveExtension | main.py:123-132 | a non-empty reported extension minus its leading dots wins; otherwise a MIME type in the table {audio/ogg: ogg, audio/mpeg: mp3, video/mp4: mp4} gives its entry; otherwise, and with no file info, "bin" |
| Media.ExtensionIsOneOfThree | main.py:123-132 | the extension is always the stripped reported one, a table entry or "bin", and a reported extension is not affected by the MIME type |
| Media.PhotoPath | main.py:106 | `media_cache/photo_{chat}_{msg}.jpg`, within the cache directory under the `photo_` prefix (PhotoPathInjective, CacheKindsDisjoint) |
| Media.DocumentPath | main.py:134 | `media_cache/doc_{chat}_{msg}.{ext}`, under the `doc_` prefix (DocumentPathInjective, CacheKindsDisjoint) |
| Media.UploadPath | main.py:161 | `media_cache/upload_{chat}_{filename}`, under the `upload_` prefix (UploadPathInjective, CacheKindsDisjoint) |
| Media.VoicePath | main.py:165 | `media_cache/voice_{chat}.ogg`, under the `voice_` prefix (VoicePathInjective, CacheKindsDisjoint) |
| Media.PhotoPathInjective | main.py:106 | `photo_{chat}_{msg}.jpg` names determine chat and message |
| Media.DocumentPathInjective | main.py:134 | `doc_{chat}_{msg}.{ext}` names determine chat, message and extension |
| Media.UploadPathInjective | main.py:161 | `upload_{chat}_{filename}` names determine chat and file name, although a file name may contain `_` |
| Media.VoicePathInjective | main.py:165 | `voice_{chat}.ogg` names determine the chat |
| Media.CacheKindsDisjoint | main.py:106-165 | photo, document, upload-buffer and voice-note names never coincide |
| Handlers.ChatOf | main.py:63-69 | a dialog's entry copies id, name and entity type; the last message is "" when the dialog has none, otherwise that message's text, which is null exactly for a message without text |
| Handlers.DocumentMediaType | main.py:139 | the reported MIME type when it is non-empty, otherwise application/octet-stream |
| Handlers.Serve | main.py:111 | a `FileResponse` succeeds with exactly the given path, media type and name if and only if the path exists; otherwise it is an unhandled error |
| Handlers.ItemOf | main.py:83-91 | a message entry copies id, sender and text, and never has both has_photo and has_document |
| Handlers.Gateway.constructor | main.py:19-20 | the gateway starts over the files already in the cache directory, with no external step taken |
| Handlers.Gateway.GetChats | main.py:57-71 | after the token gate, one entry per dialog in the backend's order, each as ChatOf gives it; a failing dialog listing is a 500 |
| Handlers.Gateway.GetMessages | main.py:74-94 | after the token gate, exactly one entry per fetched message, in reverse of the backend order, none with both photo and document flags |
| Handlers.Gateway.FetchOrDownload | main.py:108-109 | an existing path short-circuits: no download, files unchanged; otherwise exactly one download into that path; the step never removes a file |
| Handlers.Gateway.GetPhoto | main.py:97-111 | a failed gate changes nothing; a missing message or one without media is 404 "Media not found" before any download; otherwise the cache step on `photo_{chat}_{msg}.jpg` and the file served as image/jpeg |
| Handlers.Gateway.GetDocument | main.py:114-139 | same guards; the cache step on `doc_{chat}_{msg}.{ext}` with the resolved extension; a message without file info fails after the download step; the reported MIME type or application/octet-stream |
| Handlers.Gateway.GetVoice | main.py:197-228 | a missing message or one without a document is 404 "No voice message found" before any download; a raising download is a 500 that keeps any partial file it left; a missing or empty returned path or an absent file is 500; a non-zero ffmpeg exit is a 500; a missing output is 500 "Failed to create audio file"; all later failures are 500 |
| Handlers.Gateway.SendVoice | main.py:153-187 | a failed gate writes nothing; a failed conversion is 500 "FFmpeg conversion failed", removes the upload buffer and leaves the output as ffmpeg left it; otherwise a send is started and neither the upload buffer nor the voice note exists afterwards, whether the send succeeded or not |
| Handlers.Gateway.FetchTwice | main.py:108-109 | two fetches of one path: an existing path is never downloaded; otherwise a first download that leaves a file, complete or partial, makes the second a cache hit (one download, the path added), and one that leaves nothing makes the second download into the same path again |

## Left out

- The `/status`, `/me` and `/send_message` handlers (main.py:51-54, 142-150, 190-194) are not modelled. `/status` is the token gate followed by a constant reply; `/me` and `/send_message` are the gate followed by one backend call. The gate is modelled on its own in `Auth`.
- Environment loading, client construction and startup (main.py:12-26, 43-48) are left out. The configured secret is the constructor's `secret` parameter. The existing cache files are its `existing` parameter.
- get_messages.py is not part of this model. It is an interactive command-line script around the same reversed loop.
- HTTP routing, `Header`/`UploadFile` binding and response streaming are left out. Handlers return the status and detail of their failure, or their reply value. A `FileResponse` on a missing path is modelled only as the error it raises.
- Telegram calls (`get_messages`, `iter_dialogs`, `download_media`, `send_file`) are parameters of the handler methods: a reply or an exception, and, for a download, what it left on disk. How Telethon derives `msg.file`, `msg.document` and a file name is outside the model. `chat_id` and `limit` of `/messages` only select the backend's reply, which is given directly.
- ffmpeg runs (main.py:167-168, 213-219) are an exit status and an "output exists" flag. Codec parameters and shell quoting of file names are left out.
- File contents are not modelled. The disk is a set of path names, so the bytes of the upload, a partial download and the converted audio are invisible. Directories are not modelled either: a file name containing `/` is one more flat name here. So `Media.UploadPathInjective` is about these flat names: pathlib would open one file for the upload names `a/b`, `a//b`, `a/./b` and `a/b/`.
- The write of the upload buffer (main.py:162-163) always succeeds in the model.
- Concurrency is left out: the race of two first-time fetches of one cache key, and the `voice_{chat}.ogg` name shared by concurrent sends to one chat. The model is sequential.
- `msg.date.isoformat()` and `dialog.entity.__class__.__name__` are given as strings on the message and dialog.
