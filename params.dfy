/**
 * The request parameters of a synthesis request: the AudioQuery record, the
 * optional integer parameters (speed and pitch) with their inclusive bounds,
 * and the emotion whitelist with its silent normalisation.
 */
module Params {
  import opened Wrappers
  import opened Decimal

  const SpeedMin: int := 50
  const SpeedMax: int := 200
  const PitchMin: int := -300
  const PitchMax: int := 300

  /** A synthesis request; speed and pitch are Go `*int` pointers, None standing for nil. */
  datatype AudioQuery = AudioQuery(
    text: string,
    speaker: string,
    emotion: string,
    speed: Option<int>,
    pitch: Option<int>)

  /** Why an optional integer parameter was refused. */
  datatype ParamError =
    | ConversionFailed                    // "failed to convert to integer"
    | NotBetween(min: int, max: int)      // "value must be between min and max"

  predicate InRange(v: int, min: int, max: int) {
    min <= v <= max
  }

  /** An optional value is acceptable when it is absent or lies in [min, max]. */
  predicate OptionalInRange(value: Option<int>, min: int, max: int) {
    value.None? || InRange(value.value, min, max)
  }

  /**
   * parseOptionalIntParam: the empty text means "absent"; any other text must
   * be a decimal integer between min and max (inclusive), returned unchanged.
   */
  function ParseOptionalIntParam(raw: string, min: int, max: int): (r: Result<Option<int>, ParamError>)
    ensures raw == "" <==> r == Ok(None)
    ensures r.Ok? ==> OptionalInRange(r.value, min, max)
    ensures r.Ok? && r.value.Some? ==> Atoi(raw) == Some(r.value.value)
    ensures r == Err(ConversionFailed) <==> raw != "" && Atoi(raw).None?
    ensures r.Err? && r.error.NotBetween? ==> r.error == NotBetween(min, max)
    ensures r.Err? && r.error.NotBetween? ==> Atoi(raw).Some? && !InRange(Atoi(raw).value, min, max)
    ensures raw != "" && Atoi(raw).Some? && InRange(Atoi(raw).value, min, max) ==> r == Ok(Some(Atoi(raw).value))
  {
    if raw == "" then Ok(None)
    else
      match Atoi(raw)
      case None => Err(ConversionFailed)
      case Some(value) =>
        if value < min || value > max then Err(NotBetween(min, max)) else Ok(Some(value))
  }

  /** validateOptionalRange: an absent value passes; a present one must lie in [min, max]. */
  function ValidateOptionalRange(value: Option<int>, min: int, max: int): (r: Outcome<ParamError>)
    ensures r.Pass? <==> OptionalInRange(value, min, max)
    ensures r.Fail? ==> r.error == NotBetween(min, max)
  {
    match value
    case None => Pass
    case Some(v) => if v < min || v > max then Fail(NotBetween(min, max)) else Pass
  }

  /**
   * The decimal text of an integer v is accepted exactly when v lies in
   * [min, max], and then v itself comes back.
   */
  lemma ParseRenderedInt(v: int, min: int, max: int)
    requires IntMin <= min && max <= IntMax
    ensures ParseOptionalIntParam(FormatInt(v), min, max)
            == if InRange(v, min, max) then Ok(Some(v)) else Err(if IntMin <= v <= IntMax then NotBetween(min, max) else ConversionFailed)
  {
    AtoiFormatInt(v);
  }

  /**
   * The two validators agree on the bounds: whatever parseOptionalIntParam
   * accepts, validateOptionalRange accepts too, and a present value passes
   * validateOptionalRange exactly when its decimal text passes
   * parseOptionalIntParam.
   */
  lemma ParseAgreesWithValidate(raw: string, v: int, min: int, max: int)
    requires IntMin <= min && max <= IntMax
    ensures ParseOptionalIntParam(raw, min, max).Ok?
            ==> ValidateOptionalRange(ParseOptionalIntParam(raw, min, max).value, min, max) == Pass
    ensures ValidateOptionalRange(Some(v), min, max).Pass?
            <==> ParseOptionalIntParam(FormatInt(v), min, max) == Ok(Some(v))
  {
    ParseRenderedInt(v, min, max);
  }

  /** Every speed from 50 to 200 passes unchanged; every other speed is refused. */
  lemma SpeedBounds(v: int)
    ensures ParseOptionalIntParam(FormatInt(v), SpeedMin, SpeedMax).Ok? <==> 50 <= v <= 200
    ensures ParseOptionalIntParam(FormatInt(v), SpeedMin, SpeedMax).Ok?
            ==> ParseOptionalIntParam(FormatInt(v), SpeedMin, SpeedMax).value == Some(v)
    ensures ValidateOptionalRange(Some(v), SpeedMin, SpeedMax).Pass? <==> 50 <= v <= 200
  {
    ParseRenderedInt(v, SpeedMin, SpeedMax);
  }

  /** Every pitch from -300 to 300 passes unchanged; every other pitch is refused. */
  lemma PitchBounds(v: int)
    ensures ParseOptionalIntParam(FormatInt(v), PitchMin, PitchMax).Ok? <==> -300 <= v <= 300
    ensures ParseOptionalIntParam(FormatInt(v), PitchMin, PitchMax).Ok?
            ==> ParseOptionalIntParam(FormatInt(v), PitchMin, PitchMax).value == Some(v)
    ensures ValidateOptionalRange(Some(v), PitchMin, PitchMax).Pass? <==> -300 <= v <= 300
  {
    ParseRenderedInt(v, PitchMin, PitchMax);
  }

  /** The emotion whitelist; the lookup of a missing key yields Go's zero value, false. */
  const ValidEmotions: map<string, bool> := map["happy" := true, "fun" := true, "angry" := true, "sad" := true]

  predicate EmotionAllowed(emotion: string) {
    emotion in ValidEmotions && ValidEmotions[emotion]
  }

  /**
   * An emotion outside the whitelist is replaced by the empty string; it is
   * never an error.
   */
  function NormalizeEmotion(emotion: string): (r: string)
    ensures r in {"happy", "fun", "angry", "sad", ""}
    ensures r == emotion <==> emotion in {"happy", "fun", "angry", "sad", ""}
    ensures r != emotion ==> r == ""
  {
    if !EmotionAllowed(emotion) then "" else emotion
  }

  /** Normalising twice is normalising once. */
  lemma NormalizeEmotionIdempotent(emotion: string)
    ensures NormalizeEmotion(NormalizeEmotion(emotion)) == NormalizeEmotion(emotion)
  {
  }

  /** The whitelist is case-sensitive and exact. */
  lemma NormalizeEmotionExamples()
    ensures NormalizeEmotion("sad") == "sad"
    ensures NormalizeEmotion("Happy") == ""
    ensures NormalizeEmotion("rainy") == ""
    ensures NormalizeEmotion("happy ") == ""
  {
  }

  /** The invariant of every AudioQuery that survives validation. */
  predicate ValidatedQuery(q: AudioQuery) {
    && OptionalInRange(q.speed, SpeedMin, SpeedMax)
    && OptionalInRange(q.pitch, PitchMin, PitchMax)
    && q.emotion in {"happy", "fun", "angry", "sad", ""}
  }
}
