/**
 * The two synthesis endpoints: /audio_query builds a validated AudioQuery
 * from query parameters, /synthesis validates a decoded AudioQuery body and
 * hands it to the speech generator. Each is served behind the CORS wrapper.
 */
module Handlers {
  import opened Wrappers
  import opened Params
  import opened Http
  import opened Settings
  import opened Cors

  /** Why a request was refused. */
  datatype Rejection =
    | MethodNotAllowed
    | MissingParameters
    | InvalidSpeed(cause: ParamError)
    | InvalidPitch(cause: ParamError)
    | MalformedBody
    | SpeechFailed

  /** The status each refusal is reported with. */
  function StatusOf(r: Rejection): (code: int)
    ensures code == StatusMethodNotAllowed <==> r.MethodNotAllowed?
    ensures code == StatusInternalServerError <==> r.SpeechFailed?
    ensures code == StatusBadRequest <==> !r.MethodNotAllowed? && !r.SpeechFailed?
  {
    match r
    case MethodNotAllowed => StatusMethodNotAllowed
    case SpeechFailed => StatusInternalServerError
    case _ => StatusBadRequest
  }

  datatype Reply<+T> = Rejected(reason: Rejection) | Accepted(value: T)

  /**
   * The keys the JSON encoder emits for an AudioQuery, in order: text,
   * speaker and emotion always (emotion has no omitempty), speed and pitch
   * only when present.
   */
  function EncodedKeys(q: AudioQuery): (keys: seq<string>)
    ensures |keys| >= 3 && keys[..3] == ["text", "speaker", "emotion"]
    ensures "speed" in keys <==> q.speed.Some?
    ensures "pitch" in keys <==> q.pitch.Some?
    ensures forall i :: 0 <= i < |keys| ==> keys[i] in {"text", "speaker", "emotion", "speed", "pitch"}
    ensures forall i, j :: 0 <= i < j < |keys| ==> keys[i] != keys[j]
    ensures q.speed.Some? && q.pitch.Some? ==> |keys| == 5 && keys[3] == "speed" && keys[4] == "pitch"
  {
    ["text", "speaker", "emotion"]
      + (if q.speed.Some? then ["speed"] else [])
      + (if q.pitch.Some? then ["pitch"] else [])
  }

  /**
   * The outcome of the /audio_query checks, in order: the method is POST
   * (else 405); text and speaker are non-empty (else 400, before speed or
   * pitch are looked at); speed parses within [50, 200] (else 400); pitch
   * parses within [-300, 300] (else 400). The emotion is then normalised,
   * never refused.
   */
  predicate AudioQueryOutcome(verb: string, query: map<string, string>, reply: Reply<AudioQuery>) {
    var text, speaker := QueryGet(query, "text"), QueryGet(query, "speaker");
    var speed := ParseOptionalIntParam(QueryGet(query, "speed"), SpeedMin, SpeedMax);
    var pitch := ParseOptionalIntParam(QueryGet(query, "pitch"), PitchMin, PitchMax);
    && (verb != MethodPost ==> reply == Rejected(MethodNotAllowed))
    && (verb == MethodPost && (text == "" || speaker == "") ==> reply == Rejected(MissingParameters))
    && (verb == MethodPost && text != "" && speaker != "" && speed.Err?
        ==> reply == Rejected(InvalidSpeed(speed.error)))
    && (verb == MethodPost && text != "" && speaker != "" && speed.Ok? && pitch.Err?
        ==> reply == Rejected(InvalidPitch(pitch.error)))
    && (reply.Accepted? <==> verb == MethodPost && text != "" && speaker != "" && speed.Ok? && pitch.Ok?)
    && (reply.Accepted? ==>
          reply.value == AudioQuery(text, speaker, NormalizeEmotion(QueryGet(query, "emotion")), speed.value, pitch.value))
  }

  /** The /audio_query handler, which overwrites the emotion in place when it is not whitelisted. */
  method HandleAudioQuery(verb: string, query: map<string, string>) returns (reply: Reply<AudioQuery>)
    ensures AudioQueryOutcome(verb, query, reply)
    ensures reply.Accepted? ==> ValidatedQuery(reply.value) && reply.value.text != "" && reply.value.speaker != ""
  {
    if verb != MethodPost {
      return Rejected(MethodNotAllowed);
    }
    var text := QueryGet(query, "text");
    var speaker := QueryGet(query, "speaker");
    var emotion := QueryGet(query, "emotion");
    if text == "" || speaker == "" {
      return Rejected(MissingParameters);
    }
    var speed := ParseOptionalIntParam(QueryGet(query, "speed"), SpeedMin, SpeedMax);
    if speed.Err? {
      return Rejected(InvalidSpeed(speed.error));
    }
    var pitch := ParseOptionalIntParam(QueryGet(query, "pitch"), PitchMin, PitchMax);
    if pitch.Err? {
      return Rejected(InvalidPitch(pitch.error));
    }
    if !EmotionAllowed(emotion) {
      emotion := "";
    }
    reply := Accepted(AudioQuery(text, speaker, emotion, speed.value, pitch.value));
  }

  /** What the speech generator is asked for: the text and vpeak's narrator, emotion, speed and pitch options. */
  datatype SpeechJob = SpeechJob(text: string, narrator: string, emotion: string, speed: Option<int>, pitch: Option<int>)

  /**
   * The course of one /synthesis request: its reply, the generator call it
   * made (if any), and whether the removal of the output file was deferred.
   */
  datatype SynthesisRun = SynthesisRun(reply: Reply<SpeechJob>, requested: Option<SpeechJob>, removalDeferred: bool)

  /**
   * The outcome of the /synthesis checks, in order: the method is POST (else
   * 405); the body decodes (else 400); the emotion is normalised; speed lies
   * in [50, 200] (else 400); pitch lies in [-300, 300] (else 400). Empty text
   * or speaker is not refused. The generator is then called once, its outcome
   * given by `speechSucceeds`; on failure the reply is 500 and no removal of
   * the output file is deferred, on success the removal is deferred and the
   * file is served.
   */
  predicate SynthesisOutcome(verb: string, body: Decoded<AudioQuery>, speechSucceeds: bool, run: SynthesisRun) {
    && (verb != MethodPost ==> run == SynthesisRun(Rejected(MethodNotAllowed), None, false))
    && (verb == MethodPost && body.Malformed? ==> run == SynthesisRun(Rejected(MalformedBody), None, false))
    && (verb == MethodPost && body.Decoded? ==>
          var q := body.value;
          var speed := ValidateOptionalRange(q.speed, SpeedMin, SpeedMax);
          var pitch := ValidateOptionalRange(q.pitch, PitchMin, PitchMax);
          && (speed.Fail? ==> run == SynthesisRun(Rejected(InvalidSpeed(speed.error)), None, false))
          && (speed.Pass? && pitch.Fail? ==> run == SynthesisRun(Rejected(InvalidPitch(pitch.error)), None, false))
          && (speed.Pass? && pitch.Pass? ==>
                run.requested == Some(SpeechJob(q.text, q.speaker, NormalizeEmotion(q.emotion), q.speed, q.pitch))))
    && (run.requested.Some? <==>
          && verb == MethodPost && body.Decoded?
          && OptionalInRange(body.value.speed, SpeedMin, SpeedMax)
          && OptionalInRange(body.value.pitch, PitchMin, PitchMax))
    && (run.requested.Some? ==>
          run.reply == (if speechSucceeds then Accepted(run.requested.value) else Rejected(SpeechFailed)))
    && (run.removalDeferred <==> run.reply.Accepted?)
  }

  /** The /synthesis handler, which overwrites the body's emotion in place when it is not whitelisted. */
  method HandleSynthesis(verb: string, body: Decoded<AudioQuery>, speechSucceeds: bool) returns (run: SynthesisRun)
    ensures SynthesisOutcome(verb, body, speechSucceeds, run)
    ensures run.requested.Some? ==>
              var job := run.requested.value;
              && OptionalInRange(job.speed, SpeedMin, SpeedMax)
              && OptionalInRange(job.pitch, PitchMin, PitchMax)
              && job.emotion in {"happy", "fun", "angry", "sad", ""}
  {
    if verb != MethodPost {
      return SynthesisRun(Rejected(MethodNotAllowed), None, false);
    }
    if body.Malformed? {
      return SynthesisRun(Rejected(MalformedBody), None, false);
    }
    var query := body.value;
    if !EmotionAllowed(query.emotion) {
      query := query.(emotion := "");
    }
    var speedCheck := ValidateOptionalRange(query.speed, SpeedMin, SpeedMax);
    if speedCheck.Fail? {
      return SynthesisRun(Rejected(InvalidSpeed(speedCheck.error)), None, false);
    }
    var pitchCheck := ValidateOptionalRange(query.pitch, PitchMin, PitchMax);
    if pitchCheck.Fail? {
      return SynthesisRun(Rejected(InvalidPitch(pitchCheck.error)), None, false);
    }
    var job := SpeechJob(query.text, query.speaker, query.emotion, query.speed, query.pitch);
    if !speechSucceeds {
      return SynthesisRun(Rejected(SpeechFailed), Some(job), false);
    }
    run := SynthesisRun(Accepted(job), Some(job), true);
  }

  /** The status a reply is sent with: 200 when accepted, else the refusal's status. */
  function ReplyStatus<T>(reply: Reply<T>): (code: int)
    ensures code == StatusOK <==> reply.Accepted?
    ensures reply.Rejected? ==> code == StatusOf(reply.reason) && code >= StatusBadRequest
  {
    match reply
    case Accepted(_) => StatusOK
    case Rejected(r) => StatusOf(r)
  }

  /** The CORS headers a fresh response carries after the wrapper ran. */
  ghost predicate CorsHeadersWritten(store: SettingsStore, w: ResponseWriter, req: Request)
    reads store, w
  {
    var decided := AllowOrigin(store.corsPolicyMode, store.allowedOrigin, req.origin);
    && AllowMethodsHeader in w.header && w.header[AllowMethodsHeader] == AllowedMethods
    && AllowHeadersHeader in w.header && w.header[AllowHeadersHeader] == AllowedHeaders
    && (AllowOriginHeader in w.header <==> decided.Some?)
    && (decided.Some? ==> w.header[AllowOriginHeader] == decided.value)
  }

  /**
   * The /audio_query route: the CORS wrapper, then, unless the request is
   * OPTIONS, the handler exactly once, whose reply fixes the status.
   */
  method ServeAudioQuery(store: SettingsStore, w: ResponseWriter, req: Request) returns (reply: Option<Reply<AudioQuery>>)
    requires w.header == map[] && w.status.None?
    modifies w
    ensures reply.None? <==> req.verb == MethodOptions
    ensures reply.None? ==> w.status == Some(StatusOK)
    ensures reply.Some? ==> AudioQueryOutcome(req.verb, req.query, reply.value)
    ensures reply.Some? ==> w.status == Some(ReplyStatus(reply.value))
    ensures req.verb != MethodOptions && req.verb != MethodPost ==> w.status == Some(StatusMethodNotAllowed)
    ensures reply.Some? && reply.value.Accepted? ==> "Content-Type" in w.header && w.header["Content-Type"] == "application/json"
    ensures CorsHeadersWritten(store, w, req)
  {
    var proceed := EnableCors(store, w, req);
    if !proceed {
      return None;
    }
    var r := HandleAudioQuery(req.verb, req.query);
    match r {
      case Rejected(reason) =>
        w.Error(StatusOf(reason));
      case Accepted(_) =>
        w.SetHeader("Content-Type", "application/json");
        w.WriteHeader(StatusOK);
    }
    reply := Some(r);
  }

  /**
   * The /synthesis route: the CORS wrapper, then, unless the request is
   * OPTIONS, the handler exactly once; a generated file is sent as audio/wav.
   */
  method ServeSynthesis(store: SettingsStore, w: ResponseWriter, req: Request, body: Decoded<AudioQuery>, speechSucceeds: bool)
    returns (run: Option<SynthesisRun>)
    requires w.header == map[] && w.status.None?
    modifies w
    ensures run.None? <==> req.verb == MethodOptions
    ensures run.None? ==> w.status == Some(StatusOK)
    ensures run.Some? ==> SynthesisOutcome(req.verb, body, speechSucceeds, run.value)
    ensures run.Some? ==> w.status == Some(ReplyStatus(run.value.reply))
    ensures req.verb != MethodOptions && req.verb != MethodPost ==> w.status == Some(StatusMethodNotAllowed)
    ensures req.verb == MethodPost && body.Malformed? ==> w.status == Some(StatusBadRequest)
    ensures run.Some? && run.value.reply.Accepted? ==> "Content-Type" in w.header && w.header["Content-Type"] == "audio/wav"
    ensures CorsHeadersWritten(store, w, req)
  {
    var proceed := EnableCors(store, w, req);
    if !proceed {
      return None;
    }
    var r := HandleSynthesis(req.verb, body, speechSucceeds);
    match r.reply {
      case Rejected(reason) =>
        w.Error(StatusOf(reason));
      case Accepted(_) =>
        w.SetHeader("Content-Type", "audio/wav");
        w.WriteHeader(StatusOK);
    }
    run := Some(r);
  }

  /** An unknown emotion is dropped, and the encoded reply still carries an (empty) emotion. */
  method RainyEmotionDropped() returns (reply: Reply<AudioQuery>, keys: seq<string>)
    ensures reply == Accepted(AudioQuery("hello", "1", "", None, None))
    ensures keys == ["text", "speaker", "emotion"]
  {
    reply := HandleAudioQuery(MethodPost, map["text" := "hello", "speaker" := "1", "emotion" := "rainy"]);
    keys := EncodedKeys(reply.value);
  }

  /** A speed of 300 in a synthesis body is refused before the generator is called. */
  method SpeedTooHighRefused() returns (run: SynthesisRun)
    ensures run.reply == Rejected(InvalidSpeed(NotBetween(50, 200))) && ReplyStatus(run.reply) == 400
    ensures run.requested == None
  {
    run := HandleSynthesis(MethodPost, Decoded(AudioQuery("hi", "1", "", Some(300), None)), true);
  }

  /** A synthesis body with empty text and speaker still reaches the generator. */
  method EmptyTextReachesGenerator(speechSucceeds: bool) returns (run: SynthesisRun)
    ensures run.requested == Some(SpeechJob("", "", "", None, None))
  {
    run := HandleSynthesis(MethodPost, Decoded(AudioQuery("", "", "", None, None)), speechSucceeds);
  }
}
