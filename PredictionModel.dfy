/** `src/pages/PredictionModel.tsx`: the K-Success Score calculator. Four typed
    pre-KBO numbers are combined linearly, rounded to one decimal, and shown with
    a message and an indicator colour chosen by two strict cuts. */
module PredictionModel {
  import opened Js

  /** The form: each field as `parseFloat` reads it, `None` for an empty or unparsable
      entry (`NaN`). */
  datatype Form = Form(wrcPlus: Option<real>, kRate: Option<real>, bbRate: Option<real>, hr: Option<real>)

  /** `parseFloat(field) || 0`: `NaN` and 0 both become 0. */
  function Field(x: Option<real>): (v: real)
    ensures x.None? ==> v == 0.0
    ensures x.Some? ==> v == x.value
  {
    Or(x, 0.0)
  }

  /** The linear combination before rounding: wRC+ and home runs count for, strikeouts
      against, walks for. */
  function RawScore(wrc: real, k: real, bb: real, hr: real): real
  {
    wrc * 0.3 + hr * 2.0 - k * 0.5 + bb * 1.5
  }

  /** `calculateKSuccessScore()`: the prediction it sets, rounded to one decimal. */
  function Prediction(f: Form): (score: real)
    ensures var raw := RawScore(Field(f.wrcPlus), Field(f.kRate), Field(f.bbRate), Field(f.hr));
            raw - 0.05 < score <= raw + 0.05
    ensures OneDecimal(score)
  {
    Round1(RawScore(Field(f.wrcPlus), Field(f.kRate), Field(f.bbRate), Field(f.hr)))
  }

  /** A form whose every field is empty, unparsable or 0 predicts 0. */
  lemma EmptyFormScoresZero(f: Form)
    requires f.wrcPlus in {None, Some(0.0)} && f.kRate in {None, Some(0.0)}
    requires f.bbRate in {None, Some(0.0)} && f.hr in {None, Some(0.0)}
    ensures Prediction(f) == 0.0
  {
    assert RawScore(Field(f.wrcPlus), Field(f.kRate), Field(f.bbRate), Field(f.hr)) == 0.0;
    Round1Within(0.0, 0, 0);
  }

  /** Raising wRC+, walks or home runs never lowers the prediction; raising strikeouts
      never raises it. */
  lemma PredictionMonotone(wrc: real, k: real, bb: real, hr: real, wrc': real, k': real, bb': real, hr': real)
    requires wrc <= wrc' && k >= k' && bb <= bb' && hr <= hr'
    ensures Prediction(Form(Some(wrc), Some(k), Some(bb), Some(hr)))
            <= Prediction(Form(Some(wrc'), Some(k'), Some(bb'), Some(hr')))
  {
    assert RawScore(wrc, k, bb, hr) <= RawScore(wrc', k', bb', hr');
    Round1Monotone(RawScore(wrc, k, bb, hr), RawScore(wrc', k', bb', hr'));
  }

  /** An unparsable entry counts as a typed 0. */
  lemma UnparsableIsZero(f: Form)
    ensures Prediction(f) == Prediction(Form(Some(Field(f.wrcPlus)), Some(Field(f.kRate)),
                                             Some(Field(f.bbRate)), Some(Field(f.hr))))
  {
  }

  /** `getSuccessMessage(score)`. */
  datatype Message = HighSuccessProbability | ModerateRisk | HighRisk

  function MessageOf(score: real): Message
  {
    if score > 100.0 then HighSuccessProbability
    else if score > 50.0 then ModerateRisk
    else HighRisk
  }

  /** The `SuccessIndicator` background. */
  datatype Indicator = SuccessColour | WarningColour | DangerColour

  function IndicatorOf(score: real): Indicator
  {
    if score > 100.0 then SuccessColour
    else if score > 50.0 then WarningColour
    else DangerColour
  }

  /** Both cuts are strict: 100 itself is moderate and 50 itself is high risk. */
  lemma MessageTiers(score: real)
    ensures MessageOf(score) == HighSuccessProbability <==> score > 100.0
    ensures MessageOf(score) == ModerateRisk <==> 50.0 < score <= 100.0
    ensures MessageOf(score) == HighRisk <==> score <= 50.0
  {
  }

  /** The indicator colour always agrees with the message. */
  lemma IndicatorMatchesMessage(score: real)
    ensures IndicatorOf(score) == SuccessColour <==> MessageOf(score) == HighSuccessProbability
    ensures IndicatorOf(score) == WarningColour <==> MessageOf(score) == ModerateRisk
    ensures IndicatorOf(score) == DangerColour <==> MessageOf(score) == HighRisk
  {
  }

  function MessageRank(m: Message): nat
  {
    match m
    case HighRisk => 0
    case ModerateRisk => 1
    case HighSuccessProbability => 2
  }

  /** A higher score never gets a worse message. */
  lemma MessageMonotone(a: real, b: real)
    requires a <= b
    ensures MessageRank(MessageOf(a)) <= MessageRank(MessageOf(b))
  {
  }
}
