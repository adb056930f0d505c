/** The screenshot verifier: mode validation, the extraction of the JSON
    verdict from a fenced reply, its schema check, the five-attempt loop,
    and the normalisation of image arguments for the GPT-5 path.

    `json.loads` is a parameter; the verdict object it gives is seen
    through its keys. */
module VlmVerifier {
  import opened Wrappers
  import opened Text
  import opened Retry
  import ModelClient

  // ---- Fence extraction ----

  /** `_parse_verdict_json` before `json.loads`: the text after the first
      "```json" up to the next fence, else the text between the first two
      fences, else the whole reply. */
  function ExtractFenced(text: string): string {
    if Contains(text, "```json") then Before(After(text, "```json"), "```")
    else if Contains(text, "```") then Before(After(text, "```"), "```")
    else text
  }

  /** An unfenced reply is parsed whole; a fenced one yields text without
      fences, taken from right after the first "```json" when there is one. */
  lemma ExtractFencedShape(text: string)
    ensures !Contains(text, "```") && !Contains(text, "```json") ==> ExtractFenced(text) == text
    ensures Contains(text, "```json") || Contains(text, "```") ==> !Contains(ExtractFenced(text), "```")
    ensures Contains(text, "```json") ==>
      StartsWith(text[Find(text, "```json").value + 7..], ExtractFenced(text))
  {
    if Contains(text, "```json") {
      BeforeHasNoSep(After(text, "```json"), "```");
    } else if Contains(text, "```") {
      BeforeHasNoSep(After(text, "```"), "```");
    }
  }

  /** The JSON body of a "```json" block comes back exactly, whatever
      follows the block, when nothing before it or in it is a backquote. */
  lemma FencedJsonRoundTrip(pre: string, body: string, post: string)
    requires forall k :: 0 <= k < |pre| ==> pre[k] != '`'
    requires forall k :: 0 <= k < |body| ==> body[k] != '`'
    ensures ExtractFenced(pre + "```json" + body + "```" + post) == body
  {
    var rest := "```json" + body + "```" + post;
    var text := pre + rest;
    assert text == pre + "```json" + body + "```" + post;
    FindPastPrefix(pre, rest, "```json");
    ContainsAt(text, "```json", |pre|);
    var after := After(text, "```json");
    assert after == body + ("```" + post);
    FindPastPrefix(body, "```" + post, "```");
  }

  // ---- Schema ----

  datatype JsonValue = JString(s: string) | JOther

  /** What `json.loads` gives: an object with its fields, or a value of
      another Python type (`list`, `str`, ...). */
  datatype Json = JObject(fields: map<string, JsonValue>) | JNonObject(typeName: string)

  /** The schema check: an object whose verdict is "pass" or "fail" and
      which has a confidence, a reason and the screenshots used. */
  function CheckVerdict(p: Json): (r: Result<map<string, JsonValue>>)
    ensures r.Ok? <==> p.JObject? && "verdict" in p.fields
                       && p.fields["verdict"] in {JString("pass"), JString("fail")}
                       && "confidence" in p.fields && "reason" in p.fields
                       && "used_screenshots" in p.fields
    ensures r.Ok? ==> r.value == p.fields
  {
    if p.JNonObject? then Err("'" + p.typeName + "' object has no attribute 'get'")
    else if !("verdict" in p.fields && p.fields["verdict"] in {JString("pass"), JString("fail")}) then Err("invalid verdict")
    else if "confidence" !in p.fields then Err("missing confidence")
    else if "reason" !in p.fields then Err("missing reason")
    else if "used_screenshots" !in p.fields then Err("missing used_screenshots")
    else Ok(p.fields)
  }

  /** Every rejected verdict names the first check it fails. */
  lemma CheckVerdictErrors(p: Json)
    requires p.JObject?
    ensures !("verdict" in p.fields && p.fields["verdict"] in {JString("pass"), JString("fail")}) ==>
      CheckVerdict(p) == Err("invalid verdict")
    ensures "verdict" in p.fields && p.fields["verdict"] == JString("pass") && "confidence" !in p.fields ==>
      CheckVerdict(p) == Err("missing confidence")
  {
  }

  // ---- Image arguments ----

  /** `_to_base64_for_gpt5`: the stripped argument; of a data URL the text
      after the first "base64," (else after the first comma); a path is
      read and encoded by `readBase64`; anything else is taken as base64. */
  function ToBase64ForGpt5(img: string, readBase64: string -> string): string {
    var s := Strip(img);
    if StartsWith(s, "data:image") then
      if Contains(s, "base64,") then After(s, "base64,")
      else if Contains(s, ",") then After(s, ",")
      else s
    else if ModelClient.LooksLikePath(s) then readBase64(s)
    else s
  }

  /** Undoing the client's data-URL wrapping: the base64 text of a
      screenshot, wrapped as a PNG data URL, comes back unchanged. */
  lemma DataUrlRoundTrip(b: string, readBase64: string -> string)
    requires b == [] || !IsSpace(b[|b| - 1])
    ensures ToBase64ForGpt5(ModelClient.PngDataPrefix + b, readBase64) == b
  {
    var pre := "data:image/png;";
    var url := ModelClient.PngDataPrefix + b;
    assert url == pre + ("base64," + b);
    assert url[0] == 'd';
    assert url[|url| - 1] == if b == [] then ',' else b[|b| - 1];
    StripUnchanged(url);
    assert url[..10] == "data:image";
    FindPastPrefix(pre, "base64," + b, "base64,");
    ContainsAt(url, "base64,", |pre|);
    assert After(url, "base64,") == url[|pre| + 7..];
    assert url[|pre| + 7..] == b;
  }

  /** Surrounding whitespace never matters: the argument is stripped first. */
  lemma StripsFirst(img: string, readBase64: string -> string)
    ensures ToBase64ForGpt5(img, readBase64) == ToBase64ForGpt5(Strip(img), readBase64)
  {
    StripIdempotent(img);
  }

  // ---- The verification loop ----

  const VerifierAttempts: nat := 5

  /** `verify`'s argument checks and prompt-building check, done before
      any model call. */
  function ValidateRequest(mode: string, expectedText: Option<string>): (r: Result<()>)
    ensures r.Ok? <==> mode == "screenshot_only"
                       || (mode == "screenshot_expected" && expectedText.Some? && expectedText.value != "")
  {
    if mode != "screenshot_only" && mode != "screenshot_expected" then
      Err("mode must be 'screenshot_only' or 'screenshot_expected'")
    else if mode == "screenshot_expected" && (expectedText.None? || expectedText.value == "") then
      Err("expected_text is required for screenshot_expected mode")
    else Ok(())
  }

  /** What one attempt gives: the model call's outcome, parsed and checked. */
  function AttemptVerdict(o: ModelClient.Attempt<string>, parse: string -> Result<Json>): Result<map<string, JsonValue>> {
    match o
    case Raised(e) => Err(e)
    case Returned(text) =>
      match parse(ExtractFenced(text))
      case Err(e) => Err(e)
      case Ok(p) => CheckVerdict(p)
  }

  function VerifyStopper(outcomes: seq<ModelClient.Attempt<string>>, parse: string -> Result<Json>): nat -> bool {
    (j: nat) => VerifyStops(outcomes, parse, j)
  }

  /** The loop stops at attempt `j` when its verdict passes or it is the
      fifth. */
  predicate VerifyStops(outcomes: seq<ModelClient.Attempt<string>>, parse: string -> Result<Json>, j: nat) {
    j < |outcomes| && (AttemptVerdict(outcomes[j], parse).Ok? || j == VerifierAttempts - 1)
  }

  /** What the loop gives when it stops on this verdict: the verdict, or
      its error raised. */
  function Answer(v: Result<map<string, JsonValue>>): Outcome<map<string, JsonValue>> {
    match v
    case Ok(value) => Done(value)
    case Err(e) => GaveUp(e)
  }

  /** What `verify` returns or raises, with the number of model calls. */
  function VerifyResult(mode: string, expectedText: Option<string>,
                        outcomes: seq<ModelClient.Attempt<string>>, parse: string -> Result<Json>)
    : (Outcome<map<string, JsonValue>>, nat)
  {
    match ValidateRequest(mode, expectedText)
    case Err(e) => (GaveUp(e), 0)
    case Ok(_) =>
      match FirstWhere(VerifyStopper(outcomes, parse), 0, |outcomes|)
      case Some(j) => (Answer(AttemptVerdict(outcomes[j], parse)), j + 1)
      case None => (Pending, |outcomes|)
  }

  /** A valid request whose loop first stops at attempt `j` answers with
      that attempt's verdict after `j + 1` calls. */
  lemma VerifyEndsAt(mode: string, expectedText: Option<string>,
                     outcomes: seq<ModelClient.Attempt<string>>, parse: string -> Result<Json>, j: nat)
    requires ValidateRequest(mode, expectedText).Ok?
    requires VerifyStops(outcomes, parse, j)
    requires forall i :: 0 <= i < j ==> !VerifyStops(outcomes, parse, i)
    ensures VerifyResult(mode, expectedText, outcomes, parse) == (Answer(AttemptVerdict(outcomes[j], parse)), j + 1)
  {
    FirstWhereIs(VerifyStopper(outcomes, parse), |outcomes|, j);
  }

  /** The images sent: normalised to raw base64 for GPT-5, as given
      otherwise. */
  function VerifierImages(vlmModel: string, screenshots: seq<string>, readBase64: string -> string): (images: seq<string>)
    ensures |images| == |screenshots|
  {
    if vlmModel == "gpt5" then
      seq(|screenshots|, k requires 0 <= k < |screenshots| => ToBase64ForGpt5(screenshots[k], readBase64))
    else screenshots
  }

  /** `verify`: up to five attempts, each a model call whose reply must
      parse and pass the schema; the first verdict that does is returned,
      else the fifth attempt's error is raised. */
  method Verify(vlmModel: string, mode: string, expectedText: Option<string>, screenshots: seq<string>,
                outcomes: seq<ModelClient.Attempt<string>>, parse: string -> Result<Json>,
                readBase64: string -> string)
    returns (r: Outcome<map<string, JsonValue>>, calls: nat, images: seq<string>)
    ensures (r, calls) == VerifyResult(mode, expectedText, outcomes, parse)
    ensures ValidateRequest(mode, expectedText).Ok? ==> images == VerifierImages(vlmModel, screenshots, readBase64)
  {
    images := [];
    var valid := ValidateRequest(mode, expectedText);
    if valid.Err? {
      return GaveUp(valid.error), 0, images;
    }
    images := VerifierImages(vlmModel, screenshots, readBase64);
    var lastError := "";
    for attempt := 0 to VerifierAttempts
      invariant attempt < VerifierAttempts && attempt <= |outcomes|
      invariant forall j :: 0 <= j < attempt ==> !VerifyStops(outcomes, parse, j)
    {
      if attempt == |outcomes| {
        return Pending, attempt, images;
      }
      var verdict := AttemptVerdict(outcomes[attempt], parse);
      if verdict.Ok? {
        VerifyEndsAt(mode, expectedText, outcomes, parse, attempt);
        return Done(verdict.value), attempt + 1, images;
      }
      lastError := verdict.error;
      if attempt == VerifierAttempts - 1 {
        VerifyEndsAt(mode, expectedText, outcomes, parse, attempt);
        return GaveUp(lastError), attempt + 1, images;
      }
    }
    assert false;
  }

  /** An invalid request makes no call; otherwise at most five calls, and
      with five outcomes there is an answer. An error is raised only after
      the fifth attempt failed, and it is that attempt's error. */
  lemma VerifyBounds(mode: string, expectedText: Option<string>,
                     outcomes: seq<ModelClient.Attempt<string>>, parse: string -> Result<Json>)
    ensures var (r, n) := VerifyResult(mode, expectedText, outcomes, parse);
            && n <= VerifierAttempts
            && (ValidateRequest(mode, expectedText).Err? ==> n == 0 && r.GaveUp?)
            && (ValidateRequest(mode, expectedText).Ok? && |outcomes| >= VerifierAttempts ==> !r.Pending?)
            && (ValidateRequest(mode, expectedText).Ok? && r.GaveUp? ==>
                  n == VerifierAttempts && AttemptVerdict(outcomes[n - 1], parse) == Err(r.error))
            && (r.Done? ==> 0 < n && AttemptVerdict(outcomes[n - 1], parse) == Ok(r.value))
  {
    if ValidateRequest(mode, expectedText).Ok? {
      if |outcomes| >= VerifierAttempts {
        assert VerifyStopper(outcomes, parse)(VerifierAttempts - 1);
      }
      var first := FirstWhere(VerifyStopper(outcomes, parse), 0, |outcomes|);
      if first.Some? {
        var j := first.value;
        assert VerifyStops(outcomes, parse, j);
        var v := AttemptVerdict(outcomes[j], parse);
        assert VerifyResult(mode, expectedText, outcomes, parse) == (Answer(v), j + 1);
        assert v.Err? ==> j == VerifierAttempts - 1;
      }
    }
  }
}
