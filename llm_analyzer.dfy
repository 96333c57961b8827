/** Turning a language model's reply into a forecast, and the defaults the
    analyzer falls back to (the modelled part of `LLMAnalyzer`).

    The reply is located with two regular-expression searches which are
    written out here as explicit scans: the brace span `\{[^}]+\}` and the
    labelled number `<key>["']?\s*:\s*([0-9.]+)`. Decoding JSON is the
    parameter `decode` (it sees exactly the brace span, and a span that starts
    with `{` decodes, when it decodes at all, to an object); converting a JSON
    string to a float is the parameter `floatOfText`. */
module LlmAnalyzer {
  import opened Common

  // ---------------------------------------------------------------------------
  // Substrings

  predicate OccursAt(s: string, t: string, i: nat) {
    i + |t| <= |s| && s[i..i + |t|] == t
  }

  /** `t in s` */
  function Contains(s: string, t: string): (b: bool)
    ensures b <==> exists i: nat :: OccursAt(s, t, i)
  {
    ContainsFrom(s, t, 0)
  }

  function ContainsFrom(s: string, t: string, from: nat): (b: bool)
    ensures b <==> exists i: nat :: from <= i && OccursAt(s, t, i)
    decreases |s| - from
  {
    if from + |t| > |s| then false
    else OccursAt(s, t, from) || ContainsFrom(s, t, from + 1)
  }

  /** `str.lower()` on the ASCII letters. Other characters are kept: for the
      two needles searched for ("quota", "rate limit") this decides containment
      exactly as Python's full case mapping does, since no non-ASCII character
      lowers to a sequence that could complete either needle. */
  function Lower(s: string): (r: string)
    ensures |r| == |s|
    ensures forall i :: 0 <= i < |s| ==> r[i] == LowerChar(s[i])
  {
    seq(|s|, i requires 0 <= i < |s| => LowerChar(s[i]))
  }

  function LowerChar(c: char): char {
    if 'A' <= c <= 'Z' then (c as int + 32) as char else c
  }

  // ---------------------------------------------------------------------------
  // Character classes of the two patterns

  /** `\s` of a Python `str` pattern: the Unicode whitespace characters. */
  predicate IsSpace(c: char) {
    c == ' ' || '\t' <= c <= '\r' || '\U{1c}' <= c <= '\U{1f}' || c == '\U{85}' || c == '\U{a0}'
    || c == '\U{1680}' || '\U{2000}' <= c <= '\U{200a}' || c == '\U{2028}' || c == '\U{2029}'
    || c == '\U{202f}' || c == '\U{205f}' || c == '\U{3000}'
  }

  predicate IsDigit(c: char) {
    '0' <= c <= '9'
  }

  /** `[0-9.]` */
  predicate IsNumberChar(c: char) {
    IsDigit(c) || c == '.'
  }

  /** `[^}]` */
  predicate NotClose(c: char) {
    c != '}'
  }

  /** The end of the longest run of `p`-characters starting at `i`. */
  function RunEnd(s: string, i: nat, p: char -> bool): (j: nat)
    requires i <= |s|
    ensures i <= j <= |s|
    ensures forall k :: i <= k < j ==> p(s[k])
    ensures j < |s| ==> !p(s[j])
    decreases |s| - i
  {
    if i < |s| && p(s[i]) then RunEnd(s, i + 1, p) else i
  }

  // ---------------------------------------------------------------------------
  // The brace span `\{[^}]+\}`

  /** A match of the brace pattern occupies `s[i..j + 1]`: an opening brace,
      at least one character that is not a closing brace, and a closing brace. */
  predicate IsBraceMatch(s: string, i: nat, j: nat) {
    i + 2 <= j < |s| && s[i] == '{' && s[j] == '}' && forall k :: i < k < j ==> s[k] != '}'
  }

  /** The end of the match starting at `i`, if any. */
  function BraceMatchAt(s: string, i: nat): (r: Option<nat>)
    ensures r.Some? ==> IsBraceMatch(s, i, r.value)
    ensures r.None? ==> forall j: nat :: !IsBraceMatch(s, i, j)
  {
    if i < |s| && s[i] == '{' then
      var j := RunEnd(s, i + 1, NotClose);
      if i + 2 <= j < |s| then Some(j) else None
    else None
  }

  /** The leftmost match starting at `from` or later (`re.search`). */
  function BraceSearch(s: string, from: nat): (r: Option<(nat, nat)>)
    ensures r.Some? ==> from <= r.value.0 && IsBraceMatch(s, r.value.0, r.value.1)
    ensures r.Some? ==> forall i: nat, j: nat :: from <= i < r.value.0 ==> !IsBraceMatch(s, i, j)
    ensures r.None? ==> forall i: nat, j: nat :: from <= i ==> !IsBraceMatch(s, i, j)
    decreases |s| - from
  {
    if from >= |s| then None
    else
      match BraceMatchAt(s, from)
      case Some(j) => Some((from, j))
      case None => BraceSearch(s, from + 1)
  }

  function FindBraceSpan(s: string): (r: Option<(nat, nat)>)
    ensures r.Some? ==> IsBraceMatch(s, r.value.0, r.value.1)
    ensures r.Some? ==> forall i: nat, j: nat :: i < r.value.0 ==> !IsBraceMatch(s, i, j)
    ensures r.None? ==> forall i: nat, j: nat :: !IsBraceMatch(s, i, j)
  {
    BraceSearch(s, 0)
  }

  // ---------------------------------------------------------------------------
  // The labelled number `<key>["']?\s*:\s*([0-9.]+)`

  /** The captured group when the pattern matches at `i`. No step of the
      pattern can backtrack usefully: the optional quote is taken when present,
      each `\s*` stops at a character the next step needs, and the number run is
      the last step, so it is maximal. */
  function LabelMatchAt(s: string, key: string, i: nat): (r: Option<string>)
    ensures r.Some? ==> |r.value| > 0 && forall k :: 0 <= k < |r.value| ==> IsNumberChar(r.value[k])
    ensures r.Some? ==> OccursAt(s, key, i)
  {
    if !OccursAt(s, key, i) then None
    else
      var afterLabel := i + |key|;
      var afterQuote := if afterLabel < |s| && (s[afterLabel] == '"' || s[afterLabel] == '\'')
                        then afterLabel + 1 else afterLabel;
      var colon := RunEnd(s, afterQuote, IsSpace);
      if colon < |s| && s[colon] == ':' then
        var start := RunEnd(s, colon + 1, IsSpace);
        var end := RunEnd(s, start, IsNumberChar);
        if start < end then Some(s[start..end]) else None
      else None
  }

  /** The leftmost position at `from` or later where the pattern matches. */
  function FindLabel(s: string, key: string, from: nat): (r: Option<nat>)
    ensures r.Some? ==> from <= r.value && LabelMatchAt(s, key, r.value).Some?
    ensures r.Some? ==> forall k :: from <= k < r.value ==> LabelMatchAt(s, key, k).None?
    ensures r.None? ==> forall k :: from <= k ==> LabelMatchAt(s, key, k).None?
    decreases |s| - from
  {
    if from > |s| then
      assert forall k :: from <= k ==> !OccursAt(s, key, k);
      None
    else if LabelMatchAt(s, key, from).Some? then Some(from)
    else FindLabel(s, key, from + 1)
  }

  // ---------------------------------------------------------------------------
  // `float()` of a `[0-9.]+` token

  /** A token of the alphabet `[0-9.]` converts iff it has at most one dot
      and at least one digit ("1.", ".5", "12.25"; not ".", "...", "1.2.3"). */
  predicate AtMostOneDot(tok: string) {
    forall i, j :: 0 <= i < j < |tok| && tok[i] == '.' ==> tok[j] != '.'
  }

  predicate HasDigit(tok: string) {
    exists i :: 0 <= i < |tok| && IsDigit(tok[i])
  }

  function DigitsValue(ds: string): nat
    requires forall k :: 0 <= k < |ds| ==> IsDigit(ds[k])
  {
    if |ds| == 0 then 0
    else
      assert IsDigit(ds[|ds| - 1]);
      DigitsValue(ds[..|ds| - 1]) * 10 + (ds[|ds| - 1] as int - '0' as int)
  }

  function Pow10(n: nat): (p: nat)
    ensures p >= 1
  {
    if n == 0 then 1 else 10 * Pow10(n - 1)
  }

  function ConversionError(tok: string): string {
    "could not convert string to float: '" + tok + "'"
  }

  function ParseDecimal(tok: string): (r: Result<real, string>)
    requires forall k :: 0 <= k < |tok| ==> IsNumberChar(tok[k])
    ensures r.Ok? <==> AtMostOneDot(tok) && HasDigit(tok)
    ensures r.Ok? ==> r.value >= 0.0
    ensures r.Err? ==> r.error == ConversionError(tok)
  {
    var dot := RunEnd(tok, 0, IsDigit);
    var whole := tok[..dot];
    if dot == |tok| then
      if |tok| == 0 then Err(ConversionError(tok))
      else
        assert IsDigit(tok[0]);
        Ok(DigitsValue(whole) as real)
    else
      assert IsNumberChar(tok[dot]);
      var fraction := tok[dot + 1..];
      var fractionEnd := RunEnd(fraction, 0, IsDigit);
      if fractionEnd < |fraction| then
        var second := dot + 1 + fractionEnd;
        assert fraction[fractionEnd] == tok[second] && IsNumberChar(tok[second]);
        assert tok[dot] == '.' && tok[second] == '.';
        Err(ConversionError(tok))
      else if |whole| + |fraction| == 0 then
        Err(ConversionError(tok))
      else
        assert forall j :: dot < j < |tok| ==> tok[j] == fraction[j - dot - 1];
        assert IsDigit(tok[0]) || IsDigit(tok[dot + 1]);
        Ok(DigitsValue(whole) as real + DigitsValue(fraction) as real / Pow10(|fraction|) as real)
  }

  predicate AllDigits(s: string) {
    forall k :: 0 <= k < |s| ==> IsDigit(s[k])
  }

  /** Writing digits after others shifts the first ones by a power of ten. */
  lemma {:induction false} DigitsAppend(a: string, b: string)
    requires AllDigits(a) && AllDigits(b)
    ensures AllDigits(a + b)
    ensures DigitsValue(a + b) == DigitsValue(a) * Pow10(|b|) + DigitsValue(b)
    decreases |b|
  {
    if |b| == 0 {
      assert a + b == a;
    } else {
      var b' := b[..|b| - 1];
      var ab := a + b;
      assert ab[..|ab| - 1] == a + b';
      assert ab[|ab| - 1] == b[|b| - 1];
      DigitsAppend(a, b');
      ShiftStep(DigitsValue(a), Pow10(|b'|), DigitsValue(b'), b[|b| - 1] as int - '0' as int);
    }
  }

  lemma ShiftStep(x: int, p: int, y: int, c: int)
    ensures (x * p + y) * 10 + c == x * (10 * p) + (y * 10 + c)
  {
  }

  /** A token of digits only converts to the number those digits write. */
  lemma UndottedValue(tok: string)
    requires |tok| > 0 && AllDigits(tok)
    ensures ParseDecimal(tok) == Ok(DigitsValue(tok) as real)
  {
    assert RunEnd(tok, 0, IsDigit) == |tok|;
    assert tok[..|tok|] == tok;
  }

  /** A token with its dot at `d` converts, when it does, to the number whose
      digits are the token's without the dot, divided by ten to the number of
      digits after the dot: "12.25" is 1225 / 100. */
  lemma DottedValue(tok: string, d: nat)
    requires forall k :: 0 <= k < |tok| ==> IsNumberChar(tok[k])
    requires d < |tok| && tok[d] == '.'
    requires ParseDecimal(tok).Ok?
    ensures AllDigits(tok[..d] + tok[d + 1..])
    ensures ParseDecimal(tok) == Ok(DigitsValue(tok[..d] + tok[d + 1..]) as real / Pow10(|tok[d + 1..]|) as real)
  {
    DottedParse(tok, d);
    DigitsAppend(tok[..d], tok[d + 1..]);
    Rescale(DigitsValue(tok[..d]), DigitsValue(tok[d + 1..]), Pow10(|tok[d + 1..]|), DigitsValue(tok[..d] + tok[d + 1..]));
  }

  /** `x + y / n` is `(x * n + y) / n`. */
  lemma Rescale(x: nat, y: nat, n: nat, w: nat)
    requires n >= 1 && w == x * n + y
    ensures x as real + y as real / n as real == w as real / n as real
  {
    assert (x * n) as real == x as real * n as real;
  }

  /** In a token that converts, the only dot ends the leading digits and
      only digits follow it. */
  lemma DotSplit(tok: string, d: nat)
    requires forall k :: 0 <= k < |tok| ==> IsNumberChar(tok[k])
    requires d < |tok| && tok[d] == '.'
    requires AtMostOneDot(tok)
    ensures RunEnd(tok, 0, IsDigit) == d
    ensures AllDigits(tok[..d]) && AllDigits(tok[d + 1..])
  {
    var dot := RunEnd(tok, 0, IsDigit);
    assert dot <= d;
    assert tok[dot] == '.' by {
      assert IsNumberChar(tok[dot]) && !IsDigit(tok[dot]);
    }
    var fraction := tok[d + 1..];
    forall k | 0 <= k < |fraction|
      ensures IsDigit(fraction[k])
    {
      assert fraction[k] == tok[d + 1 + k];
      assert IsNumberChar(tok[d + 1 + k]);
    }
  }

  /** The value `ParseDecimal` computes for a token split at its dot. */
  lemma DottedParse(tok: string, d: nat)
    requires forall k :: 0 <= k < |tok| ==> IsNumberChar(tok[k])
    requires d < |tok| && tok[d] == '.'
    requires ParseDecimal(tok).Ok?
    ensures AllDigits(tok[..d]) && AllDigits(tok[d + 1..])
    ensures ParseDecimal(tok) == Ok(DigitsValue(tok[..d]) as real
                                    + DigitsValue(tok[d + 1..]) as real / Pow10(|tok[d + 1..]|) as real)
  {
    DotSplit(tok, d);
    var fraction := tok[d + 1..];
    assert RunEnd(fraction, 0, IsDigit) == |fraction|;
  }


  // ---------------------------------------------------------------------------
  // The decoded JSON object

  /** A JSON value as `json.loads` delivers it; only numbers, booleans and
      strings convert with `float()`. */
  datatype JsonValue = JNull | JBool(b: bool) | JNumber(n: real) | JString(text: string) | JArray | JObject

  /** The three keys read from the decoded object; an absent key is `None`. */
  datatype JsonRecord = JsonRecord(probability: Option<JsonValue>, confidence: Option<JsonValue>, reasoning: Option<string>)

  function TypeErrorOf(typeName: string): string {
    "float() argument must be a string or a real number, not '" + typeName + "'"
  }

  /** `float(value)`: booleans count as 1 and 0. */
  function JsonFloat(v: JsonValue, floatOfText: string -> Result<real, string>): (r: Result<real, string>)
    ensures v.JNumber? ==> r == Ok(v.n)
    ensures v.JBool? ==> r == Ok(if v.b then 1.0 else 0.0)
    ensures v.JString? ==> r == floatOfText(v.text)
    ensures v.JNull? || v.JArray? || v.JObject? ==> r.Err?
  {
    match v
    case JNull => Err(TypeErrorOf("NoneType"))
    case JBool(b) => Ok(if b then 1.0 else 0.0)
    case JNumber(n) => Ok(n)
    case JString(t) => floatOfText(t)
    case JArray => Err(TypeErrorOf("list"))
    case JObject => Err(TypeErrorOf("dict"))
  }

  /** `float(data.get(key, 0.5))` */
  function FieldFloat(v: Option<JsonValue>, floatOfText: string -> Result<real, string>): (r: Result<real, string>)
    ensures v.None? ==> r == Ok(0.5)
    ensures v.Some? ==> r == JsonFloat(v.value, floatOfText)
  {
    match v
    case None => Ok(0.5)
    case Some(x) => JsonFloat(x, floatOfText)
  }

  const NoReasoning := "No reasoning provided"

  // ---------------------------------------------------------------------------
  // The two branches of `_parse_response`

  /** The brace span decoded: probability, then confidence, converted in that
      order (the first failure is the one reported), each clamped to [0, 1]. */
  function JsonOutcome(text: string, decode: string -> Result<JsonRecord, string>,
                       floatOfText: string -> Result<real, string>): (r: Result<Prediction, string>)
    ensures decode(text).Err? ==> r == Err(decode(text).error)
    ensures r.Ok? ==> 0.0 <= r.value.probability <= 1.0 && 0.0 <= r.value.confidence <= 1.0
    ensures r.Ok? ==> decode(text).Ok? && r.value.reasoning == decode(text).value.reasoning.GetOr(NoReasoning)
    ensures decode(text).Ok? ==>
              var data := decode(text).value;
              var pf := FieldFloat(data.probability, floatOfText);
              var cf := FieldFloat(data.confidence, floatOfText);
              (r.Ok? <==> pf.Ok? && cf.Ok?)
              && (pf.Err? ==> r == Err(pf.error))
              && (pf.Ok? && cf.Err? ==> r == Err(cf.error))
              && (r.Ok? ==> r.value.probability == Clamp(0.0, 1.0, pf.value)
                            && r.value.confidence == Clamp(0.0, 1.0, cf.value))
  {
    match decode(text)
    case Err(e) => Err(e)
    case Ok(data) =>
      match FieldFloat(data.probability, floatOfText)
      case Err(e) => Err(e)
      case Ok(p) =>
        match FieldFloat(data.confidence, floatOfText)
        case Err(e) => Err(e)
        case Ok(c) =>
          Ok(Prediction(Clamp(0.0, 1.0, p), Clamp(0.0, 1.0, c), data.reasoning.GetOr(NoReasoning)))
  }

  /** A labelled number, or 0.5 when the key pattern does not match. */
  function FallbackField(response: string, key: string): (r: Result<real, string>)
    ensures FindLabel(response, key, 0).None? ==> r == Ok(0.5)
    ensures r.Ok? ==> r.value >= 0.0
    ensures FindLabel(response, key, 0).Some? ==>
              r == ParseDecimal(LabelMatchAt(response, key, FindLabel(response, key, 0).value).value)
  {
    match FindLabel(response, key, 0)
    case None => Ok(0.5)
    case Some(i) => ParseDecimal(LabelMatchAt(response, key, i).value)
  }

  const ReasoningLength: nat := 200

  /** No brace span: the two labelled numbers, unclamped, and the first 200
      characters of the reply as the reasoning. */
  function FallbackOutcome(response: string): (r: Result<Prediction, string>)
    ensures r.Ok? ==> r.value.probability >= 0.0 && r.value.confidence >= 0.0
    ensures r.Ok? ==> r.value.reasoning == Truncate(response, ReasoningLength)
    ensures r.Ok? <==> FallbackField(response, "probability").Ok? && FallbackField(response, "confidence").Ok?
    ensures r.Ok? ==> r.value.probability == FallbackField(response, "probability").value
                      && r.value.confidence == FallbackField(response, "confidence").value
    // The probability is converted first, so its error is the one reported.
    ensures FallbackField(response, "probability").Err? ==> r == Err(FallbackField(response, "probability").error)
    ensures FallbackField(response, "probability").Ok? && FallbackField(response, "confidence").Err? ==>
              r == Err(FallbackField(response, "confidence").error)
  {
    match FallbackField(response, "probability")
    case Err(e) => Err(e)
    case Ok(p) =>
      match FallbackField(response, "confidence")
      case Err(e) => Err(e)
      case Ok(c) => Ok(Prediction(p, c, Truncate(response, ReasoningLength)))
  }

  /** The span text when a brace span exists, the labelled numbers otherwise. */
  function ParseOutcome(response: string, decode: string -> Result<JsonRecord, string>,
                        floatOfText: string -> Result<real, string>): (r: Result<Prediction, string>)
    ensures FindBraceSpan(response).Some? ==>
              var span := FindBraceSpan(response).value;
              r == JsonOutcome(response[span.0..span.1 + 1], decode, floatOfText)
    ensures FindBraceSpan(response).None? ==> r == FallbackOutcome(response)
  {
    match FindBraceSpan(response)
    case Some(span) => JsonOutcome(response[span.0..span.1 + 1], decode, floatOfText)
    case None => FallbackOutcome(response)
  }

  /** `_parse_response`: every failure becomes (0.5, 0.0, "Parse error: ..."). */
  function ParseResponse(response: string, decode: string -> Result<JsonRecord, string>,
                         floatOfText: string -> Result<real, string>): (r: Prediction)
    ensures ParseOutcome(response, decode, floatOfText).Ok? ==> r == ParseOutcome(response, decode, floatOfText).value
    ensures ParseOutcome(response, decode, floatOfText).Err? ==>
              r == Prediction(0.5, 0.0, "Parse error: " + ParseOutcome(response, decode, floatOfText).error)
    // With a brace span both values lie in [0, 1], on success and on failure.
    ensures FindBraceSpan(response).Some? ==> 0.0 <= r.probability <= 1.0 && 0.0 <= r.confidence <= 1.0
    // A span that does not decode is a parse error; the fallback is not tried.
    ensures FindBraceSpan(response).Some? ==>
              var span := FindBraceSpan(response).value;
              var decoded := decode(response[span.0..span.1 + 1]);
              decoded.Err? ==> r == Prediction(0.5, 0.0, "Parse error: " + decoded.error)
    // Without a span the values are never negative, but they are not clamped.
    ensures FindBraceSpan(response).None? ==> r.probability >= 0.0 && r.confidence >= 0.0
    // A successful scan keeps the reply's first 200 characters as reasoning.
    ensures FindBraceSpan(response).None? && ParseOutcome(response, decode, floatOfText).Ok? ==>
              r.reasoning == Truncate(response, ReasoningLength)
  {
    match ParseOutcome(response, decode, floatOfText)
    case Ok(p) => p
    case Err(e) => Prediction(0.5, 0.0, "Parse error: " + e)
  }

  // ---------------------------------------------------------------------------
  // `analyze_market`: the defaults around the model call

  /** An exception raised while asking the model: its text and its type name. */
  datatype Failure = Failure(message: string, typeName: string)

  const Unavailable := Prediction(0.5, 0.0, "LLM analysis not available")
  const QuotaText := "Gemini API quota exceeded - using fallback"
  const ExhaustedText := "Gemini API resource exhausted - using fallback"
  const ErrorLength: nat := 100

  predicate IsQuotaMessage(message: string) {
    Contains(Lower(message), "quota") || Contains(message, "429") || Contains(Lower(message), "rate limit")
  }

  /** The first matching class wins: quota or rate limit, then an exhausted
      resource, then a generic error carrying at most 100 characters of the
      message. */
  function ClassifyFailure(f: Failure): (r: Prediction)
    ensures r.probability == 0.5 && r.confidence == 0.0
    ensures IsQuotaMessage(f.message) ==> r.reasoning == QuotaText
    ensures !IsQuotaMessage(f.message) && Contains(f.typeName, "ResourceExhausted") ==> r.reasoning == ExhaustedText
    ensures !IsQuotaMessage(f.message) && !Contains(f.typeName, "ResourceExhausted") ==>
              r.reasoning == "Analysis error: " + Truncate(f.message, ErrorLength)
  {
    if IsQuotaMessage(f.message) then Prediction(0.5, 0.0, QuotaText)
    else if Contains(f.typeName, "ResourceExhausted") then Prediction(0.5, 0.0, ExhaustedText)
    else Prediction(0.5, 0.0, "Analysis error: " + Truncate(f.message, ErrorLength))
  }

  /** Without a client the neutral default; otherwise the reply parsed, or the
      failure classified. `reply` is what the configured provider returned. */
  function AnalyzeMarket(hasClient: bool, reply: Result<string, Failure>,
                         decode: string -> Result<JsonRecord, string>,
                         floatOfText: string -> Result<real, string>): (r: Prediction)
    ensures !hasClient ==> r == Unavailable
    ensures hasClient && reply.Ok? ==> r == ParseResponse(reply.value, decode, floatOfText)
    ensures hasClient && reply.Err? ==> r == ClassifyFailure(reply.error)
  {
    if !hasClient then Unavailable
    else
      match reply
      case Ok(response) => ParseResponse(response, decode, floatOfText)
      case Err(f) => ClassifyFailure(f)
  }

  // ---------------------------------------------------------------------------
  // Properties

  /** Every failure path (no client, a failed call, a reply that does not
      parse) answers with confidence 0 and the neutral probability 0.5. */
  lemma FailuresHaveNoConfidence(hasClient: bool, reply: Result<string, Failure>,
                                 decode: string -> Result<JsonRecord, string>,
                                 floatOfText: string -> Result<real, string>)
    requires !hasClient || reply.Err? || ParseOutcome(reply.value, decode, floatOfText).Err?
    ensures AnalyzeMarket(hasClient, reply, decode, floatOfText).confidence == 0.0
    ensures AnalyzeMarket(hasClient, reply, decode, floatOfText).probability == 0.5
  {
  }

  /** A reply that is one flat object, `{` + body + `}`, is decoded whole. */
  lemma ObjectReplyIsSpan(body: string)
    requires |body| > 0 && '}' !in body
    ensures FindBraceSpan("{" + body + "}") == Some((0, |body| + 1))
  {
    var s := "{" + body + "}";
    forall k | 0 < k < |body| + 1
      ensures s[k] != '}'
    {
      assert s[k] == body[k - 1];
    }
    assert IsBraceMatch(s, 0, |body| + 1);
    assert s[0..|body| + 2] == s;
  }

  /** A successful JSON parse is the decoded values clamped: a number above 1
      becomes 1, an absent confidence 0.5, an absent reasoning the default. */
  lemma ObjectReplyClamped(body: string, x: real, decode: string -> Result<JsonRecord, string>,
                           floatOfText: string -> Result<real, string>)
    requires |body| > 0 && '}' !in body
    requires decode("{" + body + "}") == Ok(JsonRecord(Some(JNumber(x)), None, None))
    ensures ParseResponse("{" + body + "}", decode, floatOfText) == Prediction(Clamp(0.0, 1.0, x), 0.5, NoReasoning)
    ensures x > 1.0 ==> ParseResponse("{" + body + "}", decode, floatOfText).probability == 1.0
  {
    ObjectReplyIsSpan(body);
    var s := "{" + body + "}";
    assert s[0..|body| + 2] == s;
  }

  /** Without an opening brace the reply goes to the fallback. */
  lemma NoBraceNoSpan(s: string)
    requires '{' !in s
    ensures FindBraceSpan(s).None?
  {
  }

  /** A key whose first letter does not occur is never matched. */
  lemma KeyAbsent(s: string, key: string)
    requires |key| > 0 && key[0] !in s
    ensures FindLabel(s, key, 0).None?
  {
  }

  /** The fallback does not clamp: a bare "probability: 7" forecasts 7. */
  lemma FallbackNotClamped(decode: string -> Result<JsonRecord, string>, floatOfText: string -> Result<real, string>)
    ensures ParseResponse("probability: 7", decode, floatOfText) == Prediction(7.0, 0.5, "probability: 7")
  {
    var s := "probability: 7";
    NoBraceNoSpan(s);
    assert ParseOutcome(s, decode, floatOfText) == FallbackOutcome(s);
    SevenOutcome();
  }

  lemma SevenOutcome()
    ensures FallbackOutcome("probability: 7") == Ok(Prediction(7.0, 0.5, "probability: 7"))
  {
    KeyAbsent("probability: 7", "confidence");
    SevenField();
  }

  lemma SevenField()
    ensures FallbackField("probability: 7", "probability") == Ok(7.0)
  {
    SevenMatch();
    assert FindLabel("probability: 7", "probability", 0) == Some(0);
    assert DigitsValue("7") == 7;
  }

  lemma SevenMatch()
    ensures LabelMatchAt("probability: 7", "probability", 0) == Some("7")
  {
    var s := "probability: 7";
    assert OccursAt(s, "probability", 0);
    assert RunEnd(s, 11, IsSpace) == 11;
    assert RunEnd(s, 12, IsSpace) == 13;
    assert RunEnd(s, 13, IsNumberChar) == 14;
    assert s[13..14] == "7";
  }

  /** A token of dots is a parse error, reported with the token. */
  lemma DotsAreParseError(decode: string -> Result<JsonRecord, string>, floatOfText: string -> Result<real, string>)
    ensures ParseResponse("confidence: ...", decode, floatOfText) ==
            Prediction(0.5, 0.0, "Parse error: " + ConversionError("..."))
  {
    var s := "confidence: ...";
    NoBraceNoSpan(s);
    KeyAbsent(s, "probability");
    DotsField();
    assert FallbackOutcome(s) == Err(ConversionError("..."));
  }

  lemma DotsField()
    ensures FallbackField("confidence: ...", "confidence") == Err(ConversionError("..."))
  {
    DotsMatch();
    assert FindLabel("confidence: ...", "confidence", 0) == Some(0);
  }

  lemma DotsMatch()
    ensures LabelMatchAt("confidence: ...", "confidence", 0) == Some("...")
  {
    var s := "confidence: ...";
    assert OccursAt(s, "confidence", 0);
    assert RunEnd(s, 10, IsSpace) == 10;
    assert RunEnd(s, 11, IsSpace) == 12;
    assert RunEnd(s, 12, IsNumberChar) == 15;
    assert s[12..15] == "...";
  }

  /** Tokens of two dots, or of no digit, do not convert. */
  lemma MalformedDecimals()
    ensures ParseDecimal("1.2.3").Err? && ParseDecimal(".").Err?
  {
    var d := "1.2.3";
    assert d[1] == '.' && d[3] == '.';
    var e := ".";
    assert !IsDigit(e[0]);
  }

  /** A leading zero, a trailing dot and a leading dot all convert. */
  lemma PointSixFive()
    ensures ParseDecimal("0.65") == Ok(0.65)
  {
    var a := "0.65";
    assert RunEnd(a, 0, IsDigit) == 1 && a[..1] == "0" && a[2..] == "65";
    assert RunEnd("65", 0, IsDigit) == 2 && DigitsValue("65") == 65;
  }

  lemma TrailingDot()
    ensures ParseDecimal("12.") == Ok(12.0)
  {
    var b := "12.";
    assert RunEnd(b, 0, IsDigit) == 2 && b[..2] == "12" && b[3..] == "";
    assert DigitsValue("12") == 12;
  }

  lemma LeadingDot()
    ensures ParseDecimal(".5") == Ok(0.5)
  {
    var c := ".5";
    assert RunEnd(c, 0, IsDigit) == 0 && c[..0] == "" && c[1..] == "5";
    assert RunEnd("5", 0, IsDigit) == 1 && DigitsValue("5") == 5;
  }

  /** Quota wins over the type name, and "429" and "Rate Limit" count. */
  lemma QuotaScenarios()
    ensures ClassifyFailure(Failure("Quota exceeded", "ResourceExhausted")).reasoning == QuotaText
    ensures ClassifyFailure(Failure("HTTP 429", "ClientError")).reasoning == QuotaText
    ensures ClassifyFailure(Failure("Rate Limit reached", "ClientError")).reasoning == QuotaText
  {
    assert OccursAt(Lower("Quota exceeded"), "quota", 0);
    assert OccursAt("HTTP 429", "429", 5);
    assert OccursAt(Lower("Rate Limit reached"), "rate limit", 0);
  }

  /** Without a quota message the exhausted-resource type name decides. */
  lemma ExhaustedScenario()
    ensures ClassifyFailure(Failure("busy", "ResourceExhausted")).reasoning == ExhaustedText
  {
    assert OccursAt("ResourceExhausted", "ResourceExhausted", 0);
    var m := "busy";
    assert |Lower(m)| == 4;
    assert m[0..3][0] != '4' && m[1..4][0] != '4';
    assert !ContainsFrom(m, "429", 2);
  }

  /** The generic message keeps 100 characters. */
  lemma GenericScenario(long: string)
    requires |long| == 150 && !IsQuotaMessage(long)
    ensures ClassifyFailure(Failure(long, "ValueError")).reasoning == "Analysis error: " + long[..100]
  {
    assert !Contains("ValueError", "ResourceExhausted");
  }
}
