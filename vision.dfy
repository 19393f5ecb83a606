/**
 * agents/vl_agent.py: the vision agent asks a multimodal model about one
 * figure. It checks the file and its own set-up, reads the image, then makes
 * at most three calls, returning on the first reply that decodes; the last
 * attempt returns a fallback record whatever happens.
 */
module Vision {
  import opened Wrappers
  import opened Text
  import opened Json
  import opened Schema
  import opened Codec

  const MaxRetries := 3

  /** The vision agent's own cleaning: strip, drop one leading "```json" and one trailing "```"; nothing more. */
  function VlClean(content: string): string
  {
    DropSuffix(DropPrefix(Strip(content), JsonFence), Fence)
  }

  /** What one attempt ends in. */
  datatype AttemptOutcome =
    | Parsed(output: VLOutput)      // the attempt returns this record
    | ParseFailed(raw: string)      // `json.loads` raised on the cleaned text `raw`
    | Raised(message: string)       // any other exception, with its message

  const ParseFailedInsights := "Failed to parse structured insights."
  const CallErrorDescription := "Error calling VL model."

  /** The trailing return after the loop, which the last attempt never lets the agent reach. */
  const Exhausted: (VLOutput, nat) := (VLOutput("Unknown Error.", "Max retries exceeded."), MaxRetries)

  /** The outcome of one attempt whose call produced `reply`. */
  function AttemptResult(reply: ModelReply, loads: Loads): AttemptOutcome
  {
    if reply.CallFailed? then Raised(reply.message)
    else
      var raw := VlClean(reply.content);
      var r := loads(raw);
      if r.Err? then ParseFailed(raw)
      else if !r.value.JObj? then Raised(NoGetMessage(r.value))
      else
        var desc := GetOr(r.value.fields, "description", JStr("No description provided."));
        var ins := GetOr(r.value.fields, "insights", JStr("No insights provided."));
        if !desc.JStr? then Raised(ValidationMessage("VLOutput", "description"))
        else if !ins.JStr? then Raised(ValidationMessage("VLOutput", "insights"))
        else Parsed(VLOutput(desc.s, ins.s))
  }

  /**
   * The attempt loop from attempt `k` on: the record returned and the number
   * of calls made in all, or None if the loop runs out without returning.
   * `call(image, query, k)` is the model's answer to the k-th attempt.
   */
  function AttemptsFrom(image: string, query: string, call: (string, string, nat) -> ModelReply, loads: Loads, k: nat): Option<(VLOutput, nat)>
    requires k <= MaxRetries
    decreases MaxRetries - k
  {
    if k == MaxRetries then None
    else
      var outcome := AttemptResult(call(image, query, k), loads);
      if outcome.Parsed? then Some((outcome.output, k + 1))
      else if k < MaxRetries - 1 then AttemptsFrom(image, query, call, loads, k + 1)
      else if outcome.ParseFailed? then Some((VLOutput(outcome.raw, ParseFailedInsights), k + 1))
      else Some((VLOutput(CallErrorDescription, outcome.message), k + 1))
  }

  /**
   * `analyze_image`: the record returned and the number of model calls made.
   * `encoded` is the base64 text of the file, or the message of the
   * exception reading it raised.
   */
  function Analysis(ready: bool, fileExists: bool, encoded: Result<string, string>, query: string,
                    call: (string, string, nat) -> ModelReply, loads: Loads): (VLOutput, nat)
  {
    if !fileExists then (VLOutput("Error: Image file not found.", "Cannot analyze missing image."), 0)
    else if !ready then (VLOutput("Error: API Client not initialized", "Check config."), 0)
    else if encoded.Err? then (VLOutput("Error reading image file.", encoded.error), 0)
    else match AttemptsFrom(encoded.value, query, call, loads, 0)
      case Some(r) => r
      case None => Exhausted
  }

  /** One turn of the attempt loop, case by case. */
  lemma AttemptStep(image: string, query: string, call: (string, string, nat) -> ModelReply, loads: Loads, k: nat)
    requires k < MaxRetries
    ensures var o := AttemptResult(call(image, query, k), loads);
            var rest := AttemptsFrom(image, query, call, loads, k);
            (o.Parsed? ==> rest == Some((o.output, k + 1)))
            && (!o.Parsed? && k < MaxRetries - 1 ==> rest == AttemptsFrom(image, query, call, loads, k + 1))
            && (o.ParseFailed? && k == MaxRetries - 1 ==> rest == Some((VLOutput(o.raw, ParseFailedInsights), k + 1)))
            && (o.Raised? && k == MaxRetries - 1 ==> rest == Some((VLOutput(CallErrorDescription, o.message), k + 1)))
  {
  }

  /** The final attempt always returns, so the loop never runs out. */
  lemma NeverFallsThrough(image: string, query: string, call: (string, string, nat) -> ModelReply, loads: Loads, k: nat)
    requires k < MaxRetries
    ensures AttemptsFrom(image, query, call, loads, k).Some?
    ensures k < AttemptsFrom(image, query, call, loads, k).value.1 <= MaxRetries
    decreases MaxRetries - k
  {
    if k < MaxRetries - 1 {
      NeverFallsThrough(image, query, call, loads, k + 1);
    }
  }

  class VisionAgent {
    /** Whether config.yaml was found and loaded. */
    var configLoaded: bool
    /** Whether the API client was built; it is built exactly when the config loaded. */
    var clientReady: bool

    constructor(configFound: bool)
      ensures configLoaded == configFound && clientReady == configFound
    {
      configLoaded := configFound;
      clientReady := configFound;
    }

    /** `VLAgent.analyze_image`. */
    method AnalyzeImage(query: string, fileExists: bool, encoded: Result<string, string>,
                        call: (string, string, nat) -> ModelReply, loads: Loads) returns (out: VLOutput, calls: nat)
      ensures (out, calls) == Analysis(clientReady && configLoaded, fileExists, encoded, query, call, loads)
    {
      calls := 0;
      if !fileExists {
        return VLOutput("Error: Image file not found.", "Cannot analyze missing image."), calls;
      }
      if !clientReady || !configLoaded {
        return VLOutput("Error: API Client not initialized", "Check config."), calls;
      }
      if encoded.Err? {
        return VLOutput("Error reading image file.", encoded.error), calls;
      }
      out, calls := Attempts(encoded.value, query, call, loads);
    }

    /** The attempt loop of `analyze_image`, on the encoded image. */
    method Attempts(image: string, query: string, call: (string, string, nat) -> ModelReply, loads: Loads)
      returns (out: VLOutput, calls: nat)
      ensures AttemptsFrom(image, query, call, loads, 0) == Some((out, calls))
    {
      calls := 0;
      for attempt := 0 to MaxRetries
        invariant calls == attempt
        invariant AttemptsFrom(image, query, call, loads, 0) == AttemptsFrom(image, query, call, loads, attempt)
      {
        var reply := call(image, query, attempt);
        calls := calls + 1;
        var outcome := AttemptResult(reply, loads);
        AttemptStep(image, query, call, loads, attempt);
        if outcome.Parsed? {
          return outcome.output, calls;
        }
        if attempt == MaxRetries - 1 {
          if outcome.ParseFailed? {
            return VLOutput(outcome.raw, ParseFailedInsights), calls;
          }
          return VLOutput(CallErrorDescription, outcome.message), calls;
        }
      }
      NeverFallsThrough(image, query, call, loads, 0);
      assert false;
    }
  }

  /**
   * The early exits make no call at all, and are checked in order: a missing
   * image, then an uninitialised client or config, then an unreadable file.
   */
  lemma EarlyExitsMakeNoCall(ready: bool, fileExists: bool, encoded: Result<string, string>, query: string,
                             call: (string, string, nat) -> ModelReply, loads: Loads)
    ensures var a := Analysis(ready, fileExists, encoded, query, call, loads);
            && (!fileExists ==> a == (VLOutput("Error: Image file not found.", "Cannot analyze missing image."), 0))
            && (fileExists && !ready ==> a == (VLOutput("Error: API Client not initialized", "Check config."), 0))
            && (fileExists && ready && encoded.Err? ==> a == (VLOutput("Error reading image file.", encoded.error), 0))
  {
  }

  /** At most three calls; with a readable image and a ready client at least one, and "Unknown Error." is never returned. */
  lemma CallBounds(ready: bool, fileExists: bool, encoded: Result<string, string>, query: string,
                   call: (string, string, nat) -> ModelReply, loads: Loads)
    ensures Analysis(ready, fileExists, encoded, query, call, loads).1 <= MaxRetries
    ensures ready && fileExists && encoded.Ok? ==>
              Analysis(ready, fileExists, encoded, query, call, loads).1 >= 1
              && AttemptsFrom(encoded.value, query, call, loads, 0).Some?
  {
    if ready && fileExists && encoded.Ok? {
      NeverFallsThrough(encoded.value, query, call, loads, 0);
    }
  }

  /** The agent returns on the first attempt whose reply decodes, after exactly that many calls. */
  lemma StopsAtFirstParse(image: string, query: string, call: (string, string, nat) -> ModelReply, loads: Loads, k: nat, o: VLOutput)
    requires k < MaxRetries
    requires forall j :: 0 <= j < k ==> !AttemptResult(call(image, query, j), loads).Parsed?
    requires AttemptResult(call(image, query, k), loads) == Parsed(o)
    ensures Analysis(true, true, Ok(image), query, call, loads) == (o, k + 1)
  {
    assert k == 0 || k == 1 || k == 2;
    if k >= 1 {
      assert !AttemptResult(call(image, query, 0), loads).Parsed?;
    }
    if k == 2 {
      assert !AttemptResult(call(image, query, 1), loads).Parsed?;
    }
  }

  /** A third parse failure hands back the cleaned text; a third exception its message. */
  lemma LastAttemptFallbacks(image: string, query: string, call: (string, string, nat) -> ModelReply, loads: Loads)
    requires forall j :: 0 <= j < MaxRetries - 1 ==> !AttemptResult(call(image, query, j), loads).Parsed?
    ensures var last := AttemptResult(call(image, query, 2), loads);
            var res := Analysis(true, true, Ok(image), query, call, loads);
            (last.ParseFailed? ==> res == (VLOutput(last.raw, "Failed to parse structured insights."), 3))
            && (last.Raised? ==> res == (VLOutput("Error calling VL model.", last.message), 3))
  {
    assert !AttemptResult(call(image, query, 0), loads).Parsed?;
    assert !AttemptResult(call(image, query, 1), loads).Parsed?;
  }

  /** A fenced reply is unwrapped to its body, which is not stripped again. */
  lemma VlCleanUnwraps(x: string)
    ensures VlClean(JsonFence + x + Fence) == x
  {
    var w := JsonFence + x + Fence;
    var a := Strip(w);
    assert a == w by {
      assert w[0] == '`' && w[|w| - 1] == '`';
      StripTrimmed(w);
    }
    var b := DropPrefix(a, JsonFence);
    assert b == x + Fence by {
      assert w[..|JsonFence|] == JsonFence;
      assert w == JsonFence + (x + Fence);
    }
    assert (x + Fence)[|x + Fence| - |Fence|..] == Fence;
    assert DropSuffix(b, Fence) == x;
  }

  /** A bare leading "```" is kept: only the "```json" opening is recognised. */
  lemma VlCleanKeepsBareFence(s: string)
    requires Trimmed(s) && StartsWith(s, Fence) && !StartsWith(s, JsonFence) && !EndsWith(s, Fence)
    ensures VlClean(s) == s
  {
    StripTrimmed(s);
  }

  /** An object without the two keys gives the documented defaults. */
  lemma AttemptDefaults(content: string, loads: Loads)
    requires loads(VlClean(content)) == Ok(JObj(map[]))
    ensures AttemptResult(Reply(content), loads) == Parsed(VLOutput("No description provided.", "No insights provided."))
  {
  }
}
