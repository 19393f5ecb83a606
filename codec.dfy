/**
 * The fence-stripping step that the planner, the reasoner and the reviewer
 * each apply to the model's text before `json.loads` (three identical copies
 * of `_clean_json_output` in the source, defined once here).
 */
module Codec {
  import opened Text

  /** The outcome of one call to the chat model: the reply text, or the message of the exception it raised. */
  datatype ModelReply = Reply(content: string) | CallFailed(message: string)

  /**
   * Stand-in for the text of a pydantic ValidationError raised while building
   * `model` because `field` has the wrong JSON type.
   */
  function ValidationMessage(model: string, field: string): string
  {
    "validation error for " + model + ": " + field
  }

  const Fence := "```"
  const JsonFence := "```json"

  /** One leading `p` removed, if present. */
  function DropPrefix(s: string, p: string): (r: string)
    ensures StartsWith(s, p) ==> s == p + r
    ensures !StartsWith(s, p) ==> r == s
  {
    if StartsWith(s, p) then s[|p|..] else s
  }

  /** One trailing `p` removed, if present. */
  function DropSuffix(s: string, p: string): (r: string)
    ensures EndsWith(s, p) ==> s == r + p
    ensures !EndsWith(s, p) ==> r == s
  {
    if EndsWith(s, p) then s[..|s| - |p|] else s
  }

  /**
   * `_clean_json_output`: strip, drop one leading "```json", then one leading
   * "```", then one trailing "```", and strip again.
   */
  function CleanJsonOutput(raw: string): (r: string)
    ensures Trimmed(r)
  {
    Strip(DropSuffix(DropPrefix(DropPrefix(Strip(raw), JsonFence), Fence), Fence))
  }

  lemma JsonFenceOpensFence(s: string)
    requires StartsWith(s, JsonFence)
    ensures StartsWith(s, Fence)
  {
    assert s[..3] == s[..7][..3];
  }

  /** A fenced JSON block is unwrapped to its stripped body, whenever the body does not itself open a fence. */
  lemma UnwrapsJsonFence(x: string)
    requires !StartsWith(x, Fence)
    ensures CleanJsonOutput(JsonFence + x + Fence) == Strip(x)
  {
    var w := JsonFence + x + Fence;
    var a := Strip(w);
    assert a == w by {
      assert w[0] == '`' && w[|w| - 1] == '`';
      StripTrimmed(w);
    }
    var b := DropPrefix(a, JsonFence);
    assert b == x + Fence by {
      assert w[..|JsonFence|] == JsonFence;
    }
    var d := DropSuffix(DropPrefix(b, Fence), Fence);
    FenceBody(x);
    assert d == x;
    assert CleanJsonOutput(w) == Strip(d);
  }

  /** After "```json", dropping one opening and one closing fence from `x + "```"` leaves `x`. */
  lemma FenceBody(x: string)
    requires !StartsWith(x, Fence)
    ensures DropSuffix(DropPrefix(x + Fence, Fence), Fence) == x
  {
    var s1 := x + Fence;
    if StartsWith(s1, Fence) {
      // then `x` is a run of fewer than three backticks
      assert |x| < 3;
      forall i | 0 <= i < |x| ensures x[i] == '`' {
        assert s1[i] == Fence[i];
      }
      var s2 := s1[3..];
      forall i | 0 <= i < |x| ensures s2[i] == x[i] {
        assert s2[i] == s1[i + 3];
      }
      assert s2 == x;
    } else {
      assert s1[|s1| - 3..] == Fence;
    }
  }

  /** Text that is already stripped and carries no fence at either end passes through unchanged. */
  lemma KeepsUnfenced(s: string)
    requires Trimmed(s)
    requires !StartsWith(s, Fence) && !EndsWith(s, Fence)
    ensures CleanJsonOutput(s) == s
  {
    StripTrimmed(s);
    if StartsWith(s, JsonFence) {
      JsonFenceOpensFence(s);
    }
  }

  /** Cleaning is idempotent on text that, once stripped, carries no fence at either end. */
  lemma CleanIdempotentUnfenced(s: string)
    requires !StartsWith(Strip(s), Fence) && !EndsWith(Strip(s), Fence)
    ensures CleanJsonOutput(s) == Strip(s)
    ensures CleanJsonOutput(CleanJsonOutput(s)) == CleanJsonOutput(s)
  {
    var t := Strip(s);
    if StartsWith(t, JsonFence) {
      JsonFenceOpensFence(t);
    }
    StripTrimmed(t);
    KeepsUnfenced(t);
  }
}
