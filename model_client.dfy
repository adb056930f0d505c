/** The model client: its three retry loops (`call_model`,
    `call_model_with_gpt5_params`, `call_operator_model`), the way an image
    argument becomes a data URL, the `${NAME}` API-key placeholders and the
    missing-key check of its configuration, and the routing of the
    role-specific entry points.

    A loop runs against the sequence of outcomes its successive SDK calls
    produce; sleeps are recorded as a sequence of delays in seconds. */
module ModelClient {
  import opened Wrappers
  import opened Text
  import opened Retry

  /** One SDK call: its return value, or the text of the exception it raised. */
  datatype Attempt<+T> = Returned(value: T) | Raised(error: string)

  /** `_is_rate_limit_error`: the error text mentions 429. */
  predicate IsRateLimitError(error: string) {
    Contains(error, "429")
  }

  lemma RateLimitIff(error: string)
    ensures IsRateLimitError(error) <==> exists i :: OccursAt(error, "429", i)
  {
    ContainsIff(error, "429");
  }

  // ---- call_model ----

  /** The bound on retries of a remote model. */
  const MaxRetries: nat := 5

  /** The delay before the next try after the `attempt`-th failure of a
      local model: `min(2 + 0.5 * attempt, 10)`. */
  function LocalDelay(attempt: nat): real {
    if 2.0 + attempt as real * 0.5 < 10.0 then 2.0 + attempt as real * 0.5 else 10.0
  }

  /** The delay grows with the attempt number, never exceeds 10 seconds and
      reaches it from the sixteenth failure on. */
  lemma LocalDelayBounds(a: nat, b: nat)
    requires a <= b
    ensures 2.0 < LocalDelay(b) <= 10.0 || b == 0
    ensures LocalDelay(a) <= LocalDelay(b)
    ensures LocalDelay(b) == 10.0 <==> b >= 16
  {
  }

  /** The delay after the `attempt`-th failure of a call that is retried. */
  function RetryDelay(isLocal: bool, attempt: nat): real {
    if isLocal then LocalDelay(attempt) else 2.0
  }

  /** The delays slept after the first `n` failures. */
  function Delays(isLocal: bool, n: nat): (d: seq<real>)
    ensures |d| == n
  {
    seq(n, k requires 0 <= k < n => RetryDelay(isLocal, k + 1))
  }

  /** One more failure adds its delay at the end. */
  lemma DelaysNext(isLocal: bool, n: nat)
    ensures Delays(isLocal, n + 1) == Delays(isLocal, n) + [RetryDelay(isLocal, n + 1)]
  {
    assert Delays(isLocal, n + 1)[..n] == Delays(isLocal, n);
  }

  /** The loop ends at the `attempt`-th call: it returned, or the model is
      remote and the error is not a 429 or the retries are spent. */
  predicate CallModelStopsAt(isLocal: bool, o: Attempt<string>, attempt: nat) {
    o.Returned? || (!isLocal && !(IsRateLimitError(o.error) && attempt <= MaxRetries))
  }

  function CallModelStopper(isLocal: bool, outcomes: seq<Attempt<string>>): nat -> bool {
    (j: nat) => CallModelStops(isLocal, outcomes, j)
  }

  predicate CallModelStops(isLocal: bool, outcomes: seq<Attempt<string>>, j: nat) {
    j < |outcomes| && CallModelStopsAt(isLocal, outcomes[j], j + 1)
  }

  /** What the loop gives when it stops on this outcome: the content, or
      the error raised. */
  function Answer(o: Attempt<string>): Outcome<string> {
    match o
    case Returned(content) => Done(content)
    case Raised(e) => GaveUp(e)
  }

  /** What `call_model` returns or raises, with the number of calls made. */
  function CallModelResult(isLocal: bool, outcomes: seq<Attempt<string>>): (Outcome<string>, nat) {
    match FirstWhere(CallModelStopper(isLocal, outcomes), 0, |outcomes|)
    case Some(j) => (Answer(outcomes[j]), j + 1)
    case None => (Pending, |outcomes|)
  }

  /** The loop first stopping at the `j`-th outcome answers with it after
      `j + 1` calls. */
  lemma CallModelEndsAt(isLocal: bool, outcomes: seq<Attempt<string>>, j: nat)
    requires CallModelStops(isLocal, outcomes, j)
    requires forall i :: 0 <= i < j ==> !CallModelStops(isLocal, outcomes, i)
    ensures CallModelResult(isLocal, outcomes) == (Answer(outcomes[j]), j + 1)
  {
    FirstWhereIs(CallModelStopper(isLocal, outcomes), |outcomes|, j);
  }

  /** `call_model`: a local model retries every error, sleeping
      `LocalDelay`; a remote model retries only rate-limit errors, sleeping
      2 seconds, while its failure count is at most five. */
  method CallModel(isLocal: bool, outcomes: seq<Attempt<string>>)
    returns (r: Outcome<string>, calls: nat, delays: seq<real>)
    ensures (r, calls) == CallModelResult(isLocal, outcomes)
    ensures delays == Delays(isLocal, if r.Pending? then calls else calls - 1)
  {
    var attempt := 0;
    delays := [];
    while true
      invariant 0 <= attempt <= |outcomes|
      invariant forall j :: 0 <= j < attempt ==> !CallModelStops(isLocal, outcomes, j)
      invariant delays == Delays(isLocal, attempt)
      decreases |outcomes| - attempt
    {
      if attempt == |outcomes| {
        r, calls := Pending, attempt;
        return;
      }
      match outcomes[attempt] {
        case Returned(content) =>
          CallModelEndsAt(isLocal, outcomes, attempt);
          r, calls := Done(content), attempt + 1;
          return;
        case Raised(e) =>
          DelaysNext(isLocal, attempt);
          attempt := attempt + 1;
          if isLocal {
            delays := delays + [LocalDelay(attempt)];
            continue;
          }
          if IsRateLimitError(e) && attempt <= MaxRetries {
            delays := delays + [2.0];
            continue;
          }
          CallModelEndsAt(isLocal, outcomes, attempt - 1);
          r, calls := GaveUp(e), attempt;
          return;
      }
    }
  }

  /** A local model never raises: it returns the first successful call, or
      is still retrying. */
  lemma LocalNeverRaises(outcomes: seq<Attempt<string>>)
    ensures !CallModelResult(true, outcomes).0.GaveUp?
    ensures CallModelResult(true, outcomes).0.Done? ==>
      var n := CallModelResult(true, outcomes).1;
      outcomes[n - 1].Returned? && forall j :: 0 <= j < n - 1 ==> outcomes[j].Raised?
  {
    var stop := CallModelStopper(true, outcomes);
    var first := FirstWhere(stop, 0, |outcomes|);
    if first.Some? {
      forall j | 0 <= j < first.value ensures outcomes[j].Raised? {
        assert !stop(j);
      }
    }
  }

  /** A remote model makes at most six calls: after six failures it has
      raised, whatever would have followed. */
  lemma RemoteAtMostSixCalls(outcomes: seq<Attempt<string>>)
    ensures CallModelResult(false, outcomes).1 <= MaxRetries + 1
    ensures |outcomes| > MaxRetries ==> !CallModelResult(false, outcomes).0.Pending?
  {
    var stop := CallModelStopper(false, outcomes);
    if |outcomes| > MaxRetries {
      assert stop(MaxRetries);
    }
  }

  /** Six rate-limit errors in a row: the sixth propagates. */
  lemma SixthRateLimitPropagates(outcomes: seq<Attempt<string>>)
    requires |outcomes| > MaxRetries
    requires forall j :: 0 <= j <= MaxRetries ==> outcomes[j].Raised? && IsRateLimitError(outcomes[j].error)
    ensures CallModelResult(false, outcomes) == (GaveUp(outcomes[MaxRetries].error), MaxRetries + 1)
  {
    FirstWhereIs(CallModelStopper(false, outcomes), |outcomes|, MaxRetries);
  }

  /** A remote error that is not a 429 propagates at once, after any number
      of earlier rate-limit errors within the bound. */
  lemma OtherErrorPropagates(outcomes: seq<Attempt<string>>, k: nat)
    requires k < |outcomes| && k <= MaxRetries
    requires forall j :: 0 <= j < k ==> outcomes[j].Raised? && IsRateLimitError(outcomes[j].error)
    requires outcomes[k].Raised? && !IsRateLimitError(outcomes[k].error)
    ensures CallModelResult(false, outcomes) == (GaveUp(outcomes[k].error), k + 1)
  {
    FirstWhereIs(CallModelStopper(false, outcomes), |outcomes|, k);
  }

  // ---- call_model_with_gpt5_params ----

  const Gpt5Attempts: nat := 5

  function Pow2(n: nat): (p: nat)
    ensures p >= 1
  {
    if n == 0 then 1 else 2 * Pow2(n - 1)
  }

  /** The sleep after a failed GPT-5 attempt with index `attempt`:
      `2 ** attempt` for a rate-limit error, one second otherwise. */
  function Gpt5Delay(attempt: nat, error: string): real {
    if IsRateLimitError(error) then Pow2(attempt) as real else 1.0
  }

  /** The sleeps after the failures among the given outcomes. */
  function Gpt5Delays(outcomes: seq<Attempt<string>>): (d: seq<real>)
    requires forall j :: 0 <= j < |outcomes| ==> outcomes[j].Raised?
    ensures |d| == |outcomes|
  {
    seq(|outcomes|, k requires 0 <= k < |outcomes| => Gpt5Delay(k, outcomes[k].error))
  }

  /** The loop ends at attempt index `j` when the call returned or `j` is
      the last of the five. */
  function Gpt5Stopper(outcomes: seq<Attempt<string>>): nat -> bool {
    (j: nat) => j < |outcomes| && (outcomes[j].Returned? || j == Gpt5Attempts - 1)
  }

  /** What `call_model_with_gpt5_params` returns or raises, with the
      number of attempts made. */
  function Gpt5Result(outcomes: seq<Attempt<string>>): (Outcome<string>, nat) {
    match FirstWhere(Gpt5Stopper(outcomes), 0, |outcomes|)
    case Some(j) =>
      (match outcomes[j]
       case Returned(content) => Done(content)
       case Raised(e) => if IsRateLimitError(e) then GaveUp("Max retries exceeded") else GaveUp(e), j + 1)
    case None => (Pending, |outcomes|)
  }

  /** `call_model_with_gpt5_params`: five attempts; a 429 sleeps
      `2 ** attempt`, any other error sleeps one second, except that a
      non-429 error on the last attempt is raised as it is. Five 429s end in
      "Max retries exceeded". The attempt itself is either the Azure call or
      a whole `call_model`; here it is one outcome. */
  method CallGpt5(outcomes: seq<Attempt<string>>) returns (r: Outcome<string>, calls: nat, delays: seq<real>)
    ensures (r, calls) == Gpt5Result(outcomes)
    ensures calls <= |outcomes| && |delays| <= |outcomes|
    ensures forall j :: 0 <= j < |delays| ==> outcomes[j].Raised?
    ensures delays == Gpt5Delays(outcomes[..|delays|])
    ensures r.Done? ==> |delays| == calls - 1
    ensures r.GaveUp? ==> |delays| == if IsRateLimitError(outcomes[calls - 1].error) then calls else calls - 1
    ensures r.Pending? ==> |delays| == calls
  {
    ghost var stop := Gpt5Stopper(outcomes);
    delays := [];
    for attempt := 0 to Gpt5Attempts
      invariant attempt < Gpt5Attempts && attempt <= |outcomes|
      invariant forall j :: 0 <= j < attempt ==> !stop(j) && outcomes[j].Raised?
      invariant delays == Gpt5Delays(outcomes[..attempt])
    {
      if attempt == |outcomes| {
        r, calls := Pending, attempt;
        assert outcomes[..attempt] == outcomes;
        return;
      }
      match outcomes[attempt] {
        case Returned(content) =>
          FirstWhereIs(stop, |outcomes|, attempt);
          r, calls := Done(content), attempt + 1;
          return;
        case Raised(e) =>
          if IsRateLimitError(e) {
            delays := delays + [Pow2(attempt) as real];
            assert outcomes[..attempt + 1] == outcomes[..attempt] + [outcomes[attempt]];
            if attempt == Gpt5Attempts - 1 {
              FirstWhereIs(stop, |outcomes|, attempt);
              r, calls := GaveUp("Max retries exceeded"), attempt + 1;
              return;
            }
            continue;
          }
          if attempt == Gpt5Attempts - 1 {
            FirstWhereIs(stop, |outcomes|, attempt);
            r, calls := GaveUp(e), attempt + 1;
            return;
          }
          delays := delays + [1.0];
          assert outcomes[..attempt + 1] == outcomes[..attempt] + [outcomes[attempt]];
      }
    }
    assert false;
  }

  /** At most five attempts; an error is raised only on the fifth. */
  lemma Gpt5AtMostFiveAttempts(outcomes: seq<Attempt<string>>)
    ensures Gpt5Result(outcomes).1 <= Gpt5Attempts
    ensures Gpt5Result(outcomes).0.GaveUp? ==> Gpt5Result(outcomes).1 == Gpt5Attempts
    ensures |outcomes| >= Gpt5Attempts ==> !Gpt5Result(outcomes).0.Pending?
  {
    if |outcomes| >= Gpt5Attempts {
      assert Gpt5Stopper(outcomes)(Gpt5Attempts - 1);
    }
  }

  /** Five rate-limit errors: "Max retries exceeded", after sleeping 1, 2,
      4, 8 and 16 seconds. */
  lemma Gpt5RateLimitedThroughout(outcomes: seq<Attempt<string>>)
    requires |outcomes| == Gpt5Attempts
    requires forall j :: 0 <= j < |outcomes| ==> outcomes[j].Raised? && IsRateLimitError(outcomes[j].error)
    ensures Gpt5Result(outcomes) == (GaveUp("Max retries exceeded"), Gpt5Attempts)
    ensures Gpt5Delays(outcomes) == [1.0, 2.0, 4.0, 8.0, 16.0]
  {
    FirstWhereIs(Gpt5Stopper(outcomes), |outcomes|, Gpt5Attempts - 1);
  }

  // ---- call_operator_model ----

  function OperatorStopper<T>(outcomes: seq<Attempt<T>>): nat -> bool {
    (j: nat) => j < |outcomes| && (outcomes[j].Returned? || j + 1 > MaxRetries)
  }

  /** What `call_operator_model` returns or raises, with the number of
      calls made. */
  function OperatorResult<T>(outcomes: seq<Attempt<T>>): (Outcome<T>, nat) {
    match FirstWhere(OperatorStopper(outcomes), 0, |outcomes|)
    case Some(j) =>
      (match outcomes[j]
       case Returned(response) => Done(response)
       case Raised(e) => GaveUp(e), j + 1)
    case None => (Pending, |outcomes|)
  }

  /** `call_operator_model`: every error is retried after 2 seconds until
      the failure count exceeds five. */
  method CallOperatorModel<T>(outcomes: seq<Attempt<T>>) returns (r: Outcome<T>, calls: nat, delays: seq<real>)
    ensures (r, calls) == OperatorResult(outcomes)
    ensures delays == Delays(false, if r.Pending? then calls else calls - 1)
  {
    ghost var stop := OperatorStopper(outcomes);
    var attempt := 0;
    delays := [];
    while true
      invariant 0 <= attempt <= |outcomes|
      invariant forall j :: 0 <= j < attempt ==> !stop(j)
      invariant delays == Delays(false, attempt)
      decreases |outcomes| - attempt
    {
      if attempt == |outcomes| {
        r, calls := Pending, attempt;
        return;
      }
      match outcomes[attempt] {
        case Returned(response) =>
          FirstWhereIs(stop, |outcomes|, attempt);
          r, calls := Done(response), attempt + 1;
          return;
        case Raised(e) =>
          attempt := attempt + 1;
          if attempt > MaxRetries {
            FirstWhereIs(stop, |outcomes|, attempt - 1);
            r, calls := GaveUp(e), attempt;
            return;
          }
          delays := delays + [2.0];
      }
    }
  }

  /** The Operator call raises only on its sixth consecutive failure, and
      never makes a seventh call. */
  lemma OperatorRaisesOnSixthFailure<T>(outcomes: seq<Attempt<T>>)
    ensures OperatorResult(outcomes).1 <= MaxRetries + 1
    ensures OperatorResult(outcomes).0.GaveUp? ==>
      OperatorResult(outcomes).1 == MaxRetries + 1
      && forall j :: 0 <= j <= MaxRetries ==> outcomes[j].Raised?
    ensures |outcomes| > MaxRetries ==> !OperatorResult(outcomes).0.Pending?
  {
    var stop := OperatorStopper(outcomes);
    if |outcomes| > MaxRetries {
      assert stop(MaxRetries);
    }
    var first := FirstWhere(stop, 0, |outcomes|);
    if first.Some? {
      forall j | 0 <= j < first.value ensures outcomes[j].Raised? {
        assert !stop(j);
      }
    }
  }

  // ---- Images ----

  const PngDataPrefix: string := "data:image/png;base64,"

  /** How an image argument is read: a data URL, a file path, or base64
      text (a screenshot). */
  datatype ImageSource = DataUrl | FilePath | Base64Text

  /** A path separator, no PNG, JPEG or WEBP base64 signature, and shorter
      than 1000 characters. */
  predicate LooksLikePath(img: string) {
    (Contains(img, "/") || Contains(img, "\\"))
    && !StartsWith(img, "iVBOR") && !StartsWith(img, "/9j") && !StartsWith(img, "UklG")
    && |img| < 1000
  }

  function ClassifyImage(img: string): ImageSource {
    if StartsWith(img, "data:image") then DataUrl
    else if LooksLikePath(img) then FilePath
    else Base64Text
  }

  /** The data URL sent for an image argument; `readBase64` stands for
      reading the file and base64-encoding its bytes. */
  function ImageUrl(img: string, readBase64: string -> string): (url: string)
    ensures StartsWith(url, "data:image")
    ensures ClassifyImage(img) == DataUrl <==> url == img && StartsWith(img, "data:image")
    ensures ClassifyImage(img) == FilePath ==> url == PngDataPrefix + readBase64(img)
    ensures ClassifyImage(img) == Base64Text ==> url == PngDataPrefix + img
  {
    assert StartsWith(PngDataPrefix, "data:image");
    match ClassifyImage(img)
    case DataUrl => img
    case FilePath => PngDataPrefix + readBase64(img)
    case Base64Text => PngDataPrefix + img
  }

  /** Base64 screenshots are never read as files, even a JPEG one, which
      starts with a slash; neither is any text of 1000 characters or more. */
  lemma Base64NeverReadAsFile(img: string)
    requires !StartsWith(img, "data:image")
    requires StartsWith(img, "iVBOR") || StartsWith(img, "/9j") || StartsWith(img, "UklG") || |img| >= 1000
    ensures forall read: string -> string :: ImageUrl(img, read) == PngDataPrefix + img
  {
  }

  /** A relative file name without a separator is taken for base64 text. */
  lemma NoSeparatorIsBase64(img: string)
    requires !StartsWith(img, "data:image")
    requires forall k :: 0 <= k < |img| ==> img[k] != '/' && img[k] != '\\'
    ensures ClassifyImage(img) == Base64Text
  {
    NotContainsChar(img, '/');
    NotContainsChar(img, '\\');
  }

  // ---- Configuration ----

  /** The `api_key` of a model entry: absent or null, a string, or another
      YAML value with its Python truth value. */
  datatype KeyValue = NoKey | KeyText(text: string) | OtherKey(truthy: bool)

  datatype ModelConfig = ModelConfig(provider: string, apiKey: KeyValue)

  /** `${NAME}`: a placeholder for the environment variable NAME. */
  predicate IsPlaceholder(t: string) {
    StartsWith(t, "${") && EndsWith(t, "}")
  }

  function PlaceholderName(t: string): (name: string)
    requires IsPlaceholder(t)
    ensures "${" + name + "}" == t
  {
    assert t[|t| - 1] == '}';
    assert |t| >= 3;
    assert t == t[..2] + t[2..|t| - 1] + t[|t| - 1..];
    t[2..|t| - 1]
  }

  lemma PlaceholderRoundTrip(name: string)
    ensures IsPlaceholder("${" + name + "}")
    ensures PlaceholderName("${" + name + "}") == name
  {
    var t := "${" + name + "}";
    assert t[..2] == "${";
    assert t[|t| - 1..] == "}";
  }

  /** The key after substitution: a placeholder becomes the value of its
      variable in `env`, or null when the variable is unset. */
  function ExpandKey(v: KeyValue, env: string -> Option<string>): (r: KeyValue)
    ensures !(v.KeyText? && IsPlaceholder(v.text)) ==> r == v
    ensures v.KeyText? && IsPlaceholder(v.text) ==>
      (r == NoKey <==> env(PlaceholderName(v.text)).None?)
      && (r.KeyText? ==> r.text == env(PlaceholderName(v.text)).value)
  {
    if v.KeyText? && IsPlaceholder(v.text) then
      match env(PlaceholderName(v.text))
      case Some(value) => KeyText(value)
      case None => NoKey
    else v
  }

  /** `configs/models.yaml` as read: missing, not a mapping, or a mapping
      with (or without) a `models` mapping, in file order. */
  datatype ConfigFile = Absent | NotAMapping | Mapping(models: Option<seq<(string, ModelConfig)>>)

  /** `_load_config`: the models in file order with their keys expanded. */
  method LoadConfig(file: ConfigFile, env: string -> Option<string>)
    returns (r: Result<seq<(string, ModelConfig)>>)
    ensures file.Absent? ==> r == Err("Missing model config: configs/models.yaml")
    ensures file.NotAMapping? || (file.Mapping? && file.models.None?) ==>
      r == Err("Invalid models.yaml: missing 'models' key")
    ensures file.Mapping? && file.models.Some? ==>
      r.Ok? && |r.value| == |file.models.value|
      && forall k :: 0 <= k < |r.value| ==>
        r.value[k] == (file.models.value[k].0,
                       file.models.value[k].1.(apiKey := ExpandKey(file.models.value[k].1.apiKey, env)))
  {
    if file.Absent? {
      return Err("Missing model config: configs/models.yaml");
    }
    if file.NotAMapping? || file.models.None? {
      return Err("Invalid models.yaml: missing 'models' key");
    }
    var entries := file.models.value;
    var models := [];
    for i := 0 to |entries|
      invariant |models| == i
      invariant forall k :: 0 <= k < i ==>
        models[k] == (entries[k].0, entries[k].1.(apiKey := ExpandKey(entries[k].1.apiKey, env)))
    {
      var (name, config) := entries[i];
      models := models + [(name, config.(apiKey := ExpandKey(config.apiKey, env)))];
    }
    r := Ok(models);
  }

  /** Python's truth value of the key. */
  predicate KeyPresent(v: KeyValue) {
    match v
    case NoKey => false
    case KeyText(t) => t != ""
    case OtherKey(b) => b
  }

  /** A model whose key is missing and whose provider needs one. */
  predicate NeedsKey(c: ModelConfig) {
    !KeyPresent(c.apiKey) && (c.provider == "openai" || c.provider == "azure_openai")
  }

  function MissingVar(name: string, c: ModelConfig): string {
    if c.provider == "openai" then "OPENAI_API_KEY (for " + name + ")"
    else "AZURE_OPENAI_API_KEY (for " + name + ")"
  }

  /** One report per model that needs a key, in order. */
  function MissingVars(models: seq<(string, ModelConfig)>): (r: seq<string>)
    ensures r == [] <==> forall k :: 0 <= k < |models| ==> !NeedsKey(models[k].1)
    ensures |r| <= |models|
    decreases |models|
  {
    if models == [] then []
    else
      var last := models[|models| - 1];
      MissingVars(models[..|models| - 1]) + (if NeedsKey(last.1) then [MissingVar(last.0, last.1)] else [])
  }

  /** Every model that needs a key is reported, under its own name. */
  lemma {:induction false} MissingVarsReportEach(models: seq<(string, ModelConfig)>, k: nat)
    requires k < |models| && NeedsKey(models[k].1)
    ensures MissingVar(models[k].0, models[k].1) in MissingVars(models)
    decreases |models|
  {
    if k < |models| - 1 {
      MissingVarsReportEach(models[..|models| - 1], k);
    }
  }

  /** `_check_environment_variables`. */
  method CheckEnvironment(models: seq<(string, ModelConfig)>) returns (r: Result<()>)
    ensures r.Ok? <==> forall k :: 0 <= k < |models| ==> !NeedsKey(models[k].1)
    ensures r.Err? ==> r.error == "Missing environment variables: " + Join(", ", MissingVars(models))
  {
    var missing := [];
    for i := 0 to |models|
      invariant missing == MissingVars(models[..i])
    {
      var (name, config) := models[i];
      if !KeyPresent(config.apiKey) {
        if config.provider == "openai" {
          missing := missing + ["OPENAI_API_KEY (for " + name + ")"];
        } else if config.provider == "azure_openai" {
          missing := missing + ["AZURE_OPENAI_API_KEY (for " + name + ")"];
        }
      }
      assert models[..i + 1][..i] == models[..i];
    }
    assert models[..|models|] == models;
    if missing != [] {
      return Err("Missing environment variables: " + Join(", ", missing));
    }
    return Ok(());
  }

  /** `ModelClient()`: load, then check; a client exists only when no
      OpenAI or Azure model lacks its key. Local models may have none. */
  method Create(file: ConfigFile, env: string -> Option<string>) returns (r: Result<seq<(string, ModelConfig)>>)
    ensures r.Ok? ==> forall k :: 0 <= k < |r.value| ==> !NeedsKey(r.value[k].1)
    ensures r.Ok? ==> file.Mapping? && file.models.Some? && |r.value| == |file.models.value|
    ensures r.Ok? <==> file.Mapping? && file.models.Some?
                       && forall k :: 0 <= k < |file.models.value| ==>
                            !NeedsKey(file.models.value[k].1.(apiKey := ExpandKey(file.models.value[k].1.apiKey, env)))
    ensures r.Ok? ==> forall k :: 0 <= k < |r.value| ==>
      r.value[k] == (file.models.value[k].0, file.models.value[k].1.(apiKey := ExpandKey(file.models.value[k].1.apiKey, env)))
  {
    var loaded := LoadConfig(file, env);
    if loaded.Err? {
      return loaded;
    }
    var checked := CheckEnvironment(loaded.value);
    if checked.Err? {
      return Err(checked.error);
    }
    return loaded;
  }

  // ---- Routing ----

  /** Which loop a role-specific entry point ends in, with the arguments it
      passes on. `call_model_with_gpt5_params` accepts `verbosity` and
      `reasoning_effort` but never uses them: they are kept only to tell
      the entry points apart. */
  datatype Route =
    | Gpt5Route(model: string, temperature: real, images: seq<string>, verbosity: string, effort: string)
    | PlainRoute(model: string, temperature: real, images: seq<string>)
    | OperatorRoute(screenshot: Option<string>)

  /** `call_cua_model`. */
  function CallCuaModel(modelName: string, images: seq<string>): (r: Route)
    ensures r.OperatorRoute? <==> modelName == "operator"
    ensures r.OperatorRoute? ==> ((r.screenshot.Some? <==> images != [])
                                  && (images != [] ==> r.screenshot.value == images[0]))
    ensures !r.OperatorRoute? ==> r == PlainRoute(modelName, 0.3, images)
  {
    if modelName == "operator" then OperatorRoute(if images != [] then Some(images[0]) else None)
    else PlainRoute(modelName, 0.3, images)
  }

  /** Python's `x if x else default` for an optional string. */
  function OrDefault(x: Option<string>, default: string): (r: string)
    ensures r != "" || default == ""
  {
    if x.Some? && x.value != "" then x.value else default
  }

  /** `call_coder`: GPT-5 with its own parameters (default low/low), any
      other model through `call_model`; both at temperature 0.7. */
  function CallCoder(modelName: string, verbosity: Option<string>, effort: Option<string>): (r: Route)
    ensures r.Gpt5Route? <==> modelName == "gpt5"
    ensures !r.OperatorRoute? && r.model == modelName && r.temperature == 0.7 && r.images == []
    ensures r.Gpt5Route? ==> r.verbosity != "" && r.effort != ""
  {
    if modelName == "gpt5" then Gpt5Route(modelName, 0.7, [], OrDefault(verbosity, "low"), OrDefault(effort, "low"))
    else PlainRoute(modelName, 0.7, [])
  }

  /** `call_judge`: always GPT-5 through `call_model`. */
  function CallJudge(images: seq<string>): (r: Route)
    ensures r.PlainRoute? && r.model == "gpt5" && r.temperature == 0.3 && r.images == images
  {
    PlainRoute("gpt5", 0.3, images)
  }

  /** `call_task_generator`: always GPT-5 through `call_model`, text only. */
  function CallTaskGenerator(): (r: Route)
    ensures r.PlainRoute? && r.model == "gpt5" && r.temperature == 0.3 && r.images == []
  {
    PlainRoute("gpt5", 0.3, [])
  }

  /** `call_commenter`: GPT-5 with low verbosity and minimal effort, any
      other model through `call_model`. */
  function CallCommenter(modelName: string, images: seq<string>): (r: Route)
    ensures r.Gpt5Route? <==> modelName == "gpt5"
    ensures !r.OperatorRoute? && r.model == modelName && r.temperature == 0.3 && r.images == images
    ensures r.Gpt5Route? ==> r.verbosity == "low" && r.effort == "minimal"
  {
    if modelName == "gpt5" then Gpt5Route(modelName, 0.3, images, "low", "minimal")
    else PlainRoute(modelName, 0.3, images)
  }

  /** The judge always asks GPT-5, yet the way a CUA model other than
      "operator" is asked: through `call_model` at 0.3 with the images. It
      bypasses the GPT-5 parameter path that the commenter and the coder
      take for "gpt5". */
  lemma JudgeRoute(images: seq<string>, verbosity: Option<string>, effort: Option<string>)
    ensures CallJudge(images) == CallCuaModel("gpt5", images)
    ensures CallJudge(images) != CallCommenter("gpt5", images)
    ensures !CallJudge(images).Gpt5Route? && CallCommenter("gpt5", images).Gpt5Route?
    ensures CallJudge(images) != CallCoder("gpt5", verbosity, effort)
  {
  }

  /** The task generator is the judge without images; unlike the coder
      on "gpt5" it takes neither the GPT-5 parameter path nor temperature
      0.7. */
  lemma TaskGeneratorRoute(verbosity: Option<string>, effort: Option<string>)
    ensures CallTaskGenerator() == CallJudge([])
    ensures CallTaskGenerator() == CallCuaModel("gpt5", [])
    ensures CallCoder("gpt5", verbosity, effort).Gpt5Route? && !CallTaskGenerator().Gpt5Route?
    ensures CallTaskGenerator().temperature != CallCoder("gpt5", verbosity, effort).temperature
  {
  }
}
