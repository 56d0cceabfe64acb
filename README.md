# vpeakserver request handling, modelled in Dafny

vpeakserver is a small HTTP gateway, written in Go, in front of a speech
synthesiser. This project models the part of `main.go` that makes decisions.
The rest of the file is HTTP plumbing and inline HTML.

- **Optional integer parameters.** `parseOptionalIntParam` turns query text
  into absent, an error, or a value in `[min, max]`. `validateOptionalRange`
  checks a decoded value against the same bounds. Speed is limited to 50..200
  and pitch to -300..300. The model includes Go's `strconv.Atoi` on a 64-bit
  platform (module `Decimal`). A decimal rendering with a round-trip lemma
  pins it down, and so does a lemma giving exactly which texts it accepts.
- **Emotion normalisation.** An emotion outside {happy, fun, angry, sad} is
  replaced by the empty string. It is never refused.
- **CORS decision and wrapper.** `Cors.AllowOrigin` decides the
  Access-Control-Allow-Origin value from the policy mode, the allowed-origin
  list and the request's Origin header. `containsOrigin` is modelled as Go's
  `strings.Split` on a single space followed by a search. Lemmas show that
  this split is the exact inverse of joining space-free origins.
  `Cors.EnableCors` writes the headers into the mutable header map of a
  `ResponseWriter` and answers OPTIONS requests itself.
- **The /audio_query and /synthesis handlers.** Their checks run in the
  source's order and give 405, 400 or success. The AudioQuery that passes
  validation satisfies an invariant. The CORS-wrapped routes run the handler
  exactly once unless the request is OPTIONS.
- **The settings store.** `corsPolicyMode` and `allowedOrigin` are a class
  whose fields are set at start-up and overwritten by `/update-settings`.
  The settings page reads them.

The modules are `Wrappers`, `Decimal`, `Params`, `Http`, `Settings`, `Cors`
and `Handlers`, one file each.

The model follows the code, including where the code does less than its
settings page and flags suggest:

- `/update-settings` stores whatever mode it is sent. It does not refuse a
  mode other than `all` or `localapps`. Once such a mode is stored, no
  request gets an Allow-Origin header (`Cors.UnknownModeStored`).
- The two settings are separate globals with no lock. The model treats them
  sequentially; it does not provide an atomic snapshot.
- `/synthesis` does not refuse empty text or an empty speaker.
- The removal of the generated file is deferred only after generation
  succeeds. Nothing is removed on a failure path.
- `emotion` has no `omitempty` tag, so an empty emotion is still encoded
  (`Handlers.EncodedKeys`).
- In mode `localapps`, a request with no Origin header has origin `""`. With
  the default empty list this equals `allowedOrigin`, so the header is set
  to the empty value (`Cors.MissingOriginWithDefaultList`).

## Model

| member | source | states |
|---|---|---|
| `Decimal.Atoi` | main.go:54-57 | A success is a value within Go's 64-bit `int`, read from non-empty text. Exactly which texts succeed is stated by `AtoiSpellsDecimal`. |
| `Decimal.AtoiSpellsDecimal` | main.go:54-57 | Atoi returns v iff the text spells v: an optional sign, then at least one digit. After leading zeros the digits are the shortest rendering of the absolute value of v. A negative v has a `-` and a positive v has none. v fits 64 bits. |
| `Decimal.AtoiFormatInt` | main.go:54-57 | The decimal text of every integer reads back as that integer exactly when it fits 64 bits. Every other integer is refused. |
| `Decimal.AtoiLeadingZerosAndPlus` | main.go:54 | Leading zeros, a `+` sign and `-0` are accepted as Atoi accepts them. |
| `Decimal.AtoiRefusesNonDecimal` | main.go:54-57 | The empty text, a lone sign, a leading space, a decimal point and letters are refused. |
| `Params.ParseOptionalIntParam` | main.go:49-64 | Only `""` gives "absent". Non-empty text that Atoi refuses gives a conversion error. Text Atoi reads as v gives v unchanged iff `min <= v <= max`. Otherwise it gives the between-min-and-max error, and only in that case. |
| `Params.ValidateOptionalRange` | main.go:66-76 | An absent value passes. A present value passes iff `min <= v <= max`, with both bounds inclusive. A failure names the bounds. |
| `Params.ParseRenderedInt` | main.go:49-64 | The decimal text of `v` parses to `Some(v)` iff `v` is in `[min,max]`. Otherwise it gives the bounds error, or a conversion error beyond 64 bits. |
| `Params.ParseAgreesWithValidate` | main.go:49-76 | The two validators agree on the bounds. Whatever the parser accepts passes validation. `Some(v)` passes validation iff v's text parses to v. |
| `Params.SpeedBounds` | main.go:18-20 | Speed passes, unchanged, iff it lies in 50..200, whether given as text or decoded. |
| `Params.PitchBounds` | main.go:21-22 | Pitch passes, unchanged, iff it lies in -300..300, whether given as text or decoded. |
| `Params.NormalizeEmotion` | main.go:42-47 | The result is one of the four emotions or `""`. The value is kept verbatim iff it is a whitelisted emotion or already empty. Otherwise it becomes `""`. |
| `Params.NormalizeEmotionIdempotent` | main.go:278-280 | Normalising twice gives the same result as normalising once. |
| `Params.NormalizeEmotionExamples` | main.go:309-311 | The check is exact and case-sensitive: `Happy`, `rainy` and `happy ` become `""`. |
| `Settings.SettingsStore.constructor` | main.go:114-115 | The store starts with the mode and origin list given by the flags. |
| `Settings.SettingsStore.Default` | main.go:114-115 | Without flags the store starts as (`localapps`, `""`). |
| `Settings.SettingsStore.PageData` | main.go:516-520 | The settings page shows both current settings. |
| `Settings.SettingsStore.Update` | main.go:543-544 | Both settings are overwritten with the given values, without any check. |
| `Settings.SettingsStore.HandleUpdateSettings` | main.go:531-548 | Non-POST gives 405 and a malformed body gives 400, both leaving the store unchanged. Otherwise both fields are overwritten unchecked and the reply is 200 with the success body. |
| `Settings.SaveThenShow` | main.go:543-544 | After a successful update, the settings page shows exactly the saved pair. |
| `Cors.Split` | main.go:104 | Splitting yields at least one piece. No piece contains the separator. |
| `Cors.JoinSplit` | main.go:104 | Joining the pieces of a split gives back the original text. |
| `Cors.SplitJoin` | main.go:104 | Splitting a single-space join of space-free origins gives back exactly that list. |
| `Cors.Contains` | main.go:105-110 | The early-return search finds x iff x is one of the tokens. |
| `Cors.ContainsOrigin` | main.go:103-111 | True iff the origin is a token of the allowed list split on single spaces. A matched origin never contains a space. |
| `Cors.ListedOriginContained` | main.go:103-111 | Every origin written into a space-separated list is recognised. |
| `Cors.EmptyListContainsOnlyEmpty` | main.go:104 | The empty list splits into `[""]`, so it contains exactly the empty origin. |
| `Cors.AllowOrigin` | main.go:83-89 | Mode `all` gives `*` for every origin. Mode `localapps` gives the origin verbatim iff it starts with `app://` or `http://localhost`, equals the list, or is one of its tokens; otherwise nothing. Any other mode gives nothing. |
| `Cors.AppOriginEchoed` | main.go:86-87 | Every `app://` origin is echoed under `localapps`, whatever the list. |
| `Cors.UnlistedOriginRefused` | main.go:85-89 | With one listed origin, any other origin that is not local gets no header. |
| `Cors.EvilOriginRefused` | main.go:85-89 | `http://evil.example` gets no header when only `http://good.example` is listed. |
| `Cors.ListedOriginEchoed` | main.go:86-87 | The second origin of a two-origin list is echoed. |
| `Cors.MissingOriginWithDefaultList` | main.go:86 | An absent Origin with the default empty list sets an empty Allow-Origin value. |
| `Cors.EnableCors` | main.go:79-100 | The header map gains the decided Allow-Origin value, when there is one, plus the fixed Allow-Methods and Allow-Headers. OPTIONS gets status 200 and stops there. Any other method proceeds to the handler. |
| `Cors.UnknownModeStored` | main.go:543-544 | An unknown mode is stored with reply 200. From then on no origin gets an Allow-Origin header. |
| `Handlers.EncodedKeys` | main.go:28-34 | The keys start with text, speaker and emotion. Speed or pitch appears iff that value is present. No key is outside the five struct fields, and none is repeated. |
| `Handlers.StatusOf` | main.go:252-337 | A refusal's status is 405 iff the method is wrong and 500 iff generation failed. Every other refusal (missing parameters, bad speed or pitch, malformed body) is 400. |
| `Handlers.ReplyStatus` | main.go:290-342 | A reply is sent with 200 iff it is accepted. A refusal is sent with its own status, which is at least 400. |
| `Http.QueryGet` | main.go:257-259 | A query parameter's value is its (first) value when present, and `""` when absent. |
| `Http.ResponseWriter.SetHeader` | main.go:91-92 | Setting a header replaces any earlier value of that key and leaves every other key, the status and the body unchanged. |
| `Http.ResponseWriter.WriteHeader` | main.go:95 | Only the first status written takes effect; headers and body are unchanged. |
| `Http.ResponseWriter.Write` | main.go:547 | Writing appends to the body and implies status 200 when no status was written before. |
| `Http.ResponseWriter.Error` | main.go:253 | http.Error drops Content-Length and sets a plain-text Content-Type and `nosniff`. It writes the status unless one was already written. |
| `Handlers.HandleAudioQuery` | main.go:251-295 | Via `AudioQueryOutcome`, checks run in order: non-POST gives 405; empty text or speaker gives 400 before speed or pitch are read; a speed error gives 400; then a pitch error gives 400. Success iff all pass. The accepted query keeps text and speaker, holds the normalised emotion and the parsed speed and pitch, and satisfies the range invariant. |
| `Handlers.HandleSynthesis` | main.go:297-343 | Via `SynthesisOutcome`, checks run in order: non-POST gives 405; a decode failure gives 400; a speed range error gives 400 before pitch; then a pitch range error gives 400. The generator is called iff both ranges pass, with the normalised emotion. Empty text or speaker is not refused. A generator failure gives 500. File removal is deferred iff the reply succeeds. |
| `Handlers.ServeAudioQuery` | main.go:251-295 | The CORS headers are written. OPTIONS gives 200 without the handler. Otherwise the reply is the one `AudioQueryOutcome` fixes for the request, and the status is that reply's status. Any method other than OPTIONS or POST gives 405. Success is sent as JSON. |
| `Handlers.ServeSynthesis` | main.go:297-343 | The CORS headers are written. OPTIONS gives 200 without the handler. Otherwise the run is the one `SynthesisOutcome` fixes for the request, and the status is that reply's status. Any method other than OPTIONS or POST gives 405, and a malformed POST body gives 400. Success is sent as audio/wav. |
| `Handlers.RainyEmotionDropped` | main.go:257-288 | `text=hello&speaker=1&emotion=rainy` is accepted with an empty emotion, and the encoding still emits the emotion key. |
| `Handlers.SpeedTooHighRefused` | main.go:313-316 | A body with speed 300 gives 400 (speed must be between 50 and 200), and the generator is not called. |
| `Handlers.EmptyTextReachesGenerator` | main.go:303-334 | A body with empty text and speaker reaches the generator. |

## Left out

- HTML pages, the `lang` cookie and the `/` handler (main.go:119-249, 346-528) are UI. Only the settings page's read of both settings is kept (`PageData`).
- Flag parsing, logging and server start-up (main.go:114-116, 550-553) are not modelled. Their defaults become the store's `Default` constructor.
- JSON decoding is an input: a `Decoded` value or `Malformed`. The model starts from the decoded fields. Go's decoder gives an absent key its zero value `""`.
- JSON encoding is not modelled beyond `EncodedKeys`. The escaped text of the encoding is left out.
- Error message texts are not modelled, including those of http.Error and of the wrapped strconv errors. http.Error's headers and status are modelled.
- `Decimal.Atoi` reports one kind of conversion failure. Go distinguishes a syntax error from a range error, which changes only the message text.
- Go strings are bytes; the model uses characters. The only separator is the ASCII space, which never occurs inside a multi-byte UTF-8 sequence.
- `vpeak.GenerateSpeech` is a foreign call. Its success or failure is the input `speechSucceeds`.
- The uuid-based output file name is not modelled, nor whether the file exists after a failed generation.
- `http.ServeFile` and `os.Remove` are file I/O. Only the deferral of the removal is recorded (`removalDeferred`).
- Handlers.ServeSynthesis: states status 200 on success, assuming `http.ServeFile` finds and sends the file. Its own statuses are not modelled: its error statuses, 206 for a request with a `Range` header, and 412 for one with `If-None-Match: *`.
- Concurrency is not modelled. The two globals are read and written without a lock, and requests run concurrently; the model is sequential.
- `/setting` and `/update-settings` are not behind the CORS wrapper, and the model does not wrap them.
