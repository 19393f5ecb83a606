/**
 * The handful of Python `str` and `pathlib` operations the pipeline relies on,
 * written out over `seq<char>`: strip, startswith/endswith, `in`, lower,
 * split/join, decimal rendering of integers and the name/stem of a path.
 */
module Text {
  import opened Wrappers

  /** The characters for which Python's `str.isspace()` holds (what `str.strip()` removes). */
  predicate IsSpace(c: char)
  {
    c == ' ' || ('\t' <= c <= '\r') || ('\U{1C}' <= c <= '\U{1F}')
    || c == '\U{85}' || c == '\U{A0}' || c == '\U{1680}'
    || ('\U{2000}' <= c <= '\U{200A}') || c == '\U{2028}' || c == '\U{2029}'
    || c == '\U{202F}' || c == '\U{205F}' || c == '\U{3000}'
  }

  predicate AllSpace(s: string)
  {
    forall i :: 0 <= i < |s| ==> IsSpace(s[i])
  }

  /** True when `s` has no whitespace at either end, i.e. is its own `strip()`. */
  predicate Trimmed(s: string)
  {
    s == [] || (!IsSpace(s[0]) && !IsSpace(s[|s| - 1]))
  }

  /** `str.lstrip()`: drops the leading whitespace and nothing else (see `LStripSpec`). */
  function LStrip(s: string): (r: string)
    ensures |r| <= |s|
    ensures r == [] || !IsSpace(r[0])
    decreases |s|
  {
    if s != [] && IsSpace(s[0]) then LStrip(s[1..]) else s
  }

  /** `str.rstrip()`: drops the trailing whitespace and nothing else (see `RStripSpec`). */
  function RStrip(s: string): (r: string)
    ensures |r| <= |s| && r == s[..|r|]
    ensures r == [] || !IsSpace(r[|r| - 1])
    decreases |s|
  {
    if s != [] && IsSpace(s[|s| - 1]) then RStrip(s[..|s| - 1]) else s
  }

  /** `lstrip` keeps a suffix and removes only whitespace. */
  lemma {:induction false} LStripSpec(s: string)
    ensures var r := LStrip(s);
            r == s[|s| - |r|..] && AllSpace(s[..|s| - |r|])
    decreases |s|
  {
    if s != [] && IsSpace(s[0]) {
      LStripSpec(s[1..]);
      var r := LStrip(s);
      assert s[1..][|s| - 1 - |r|..] == s[|s| - |r|..];
      assert s[..|s| - |r|] == [s[0]] + s[1..][..|s| - 1 - |r|];
    }
  }

  /** `rstrip` keeps a prefix and removes only whitespace. */
  lemma {:induction false} RStripSpec(s: string)
    ensures var r := RStrip(s);
            AllSpace(s[|r|..])
    decreases |s|
  {
    if s != [] && IsSpace(s[|s| - 1]) {
      RStripSpec(s[..|s| - 1]);
      var r := RStrip(s);
      assert s[|r|..] == s[..|s| - 1][|r|..] + [s[|s| - 1]];
    }
  }

  /** `str.strip()`. */
  function Strip(s: string): (r: string)
    ensures Trimmed(r)
    ensures |r| <= |s|
  {
    RStrip(LStrip(s))
  }

  /** A string without whitespace at its ends is its own `strip()`; in particular `strip` is idempotent. */
  lemma StripTrimmed(s: string)
    requires Trimmed(s)
    ensures Strip(s) == s
  {
    assert LStrip(s) == s;
    assert RStrip(s) == s;
  }

  lemma AppendAssoc(a: string, b: string, c: string)
    ensures (a + b) + c == a + (b + c)
  {
  }

  predicate StartsWith(s: string, p: string)
  {
    |p| <= |s| && s[..|p|] == p
  }

  predicate EndsWith(s: string, p: string)
  {
    |p| <= |s| && s[|s| - |p|..] == p
  }

  /** Python's `t in s` for strings. */
  predicate Contains(s: string, t: string)
    decreases |s|
  {
    StartsWith(s, t) || (s != [] && Contains(s[1..], t))
  }

  lemma ContainsAt(s: string, t: string, i: nat)
    requires i + |t| <= |s| && s[i..i + |t|] == t
    ensures Contains(s, t)
    decreases i
  {
    if i > 0 {
      assert s[1..][i - 1..i - 1 + |t|] == s[i..i + |t|];
      ContainsAt(s[1..], t, i - 1);
    }
  }

  /** `t in s` holds exactly when `t` occurs at some position of `s`. */
  lemma ContainsWitness(s: string, t: string) returns (i: nat)
    requires Contains(s, t)
    ensures i + |t| <= |s| && s[i..i + |t|] == t
    decreases |s|
  {
    if StartsWith(s, t) {
      i := 0;
    } else {
      var j := ContainsWitness(s[1..], t);
      assert s[1..][j..j + |t|] == s[j + 1..j + 1 + |t|];
      i := j + 1;
    }
  }

  /** What occurs in either part occurs in the concatenation. */
  lemma ContainsSuffix(a: string, t: string)
    ensures Contains(a + t, t)
  {
    assert (a + t)[|a|..|a| + |t|] == t;
    ContainsAt(a + t, t, |a|);
  }

  lemma ContainsConcat(a: string, b: string, t: string)
    requires Contains(a, t) || Contains(b, t)
    ensures Contains(a + b, t)
  {
    if Contains(a, t) {
      var i := ContainsWitness(a, t);
      assert (a + b)[i..i + |t|] == a[i..i + |t|];
      ContainsAt(a + b, t, i);
    } else {
      var i := ContainsWitness(b, t);
      assert (a + b)[|a| + i..|a| + i + |t|] == b[i..i + |t|];
      ContainsAt(a + b, t, |a| + i);
    }
  }

  /** The Kelvin sign, whose lowercase is the ASCII letter 'k'. */
  const KelvinSign := '\U{212A}'

  /**
   * A character's lowercase where that is a single ASCII letter: 'A' to 'Z'
   * and the Kelvin sign, the only characters `str.lower()` maps to one; every
   * other character is kept.
   */
  function LowerChar(c: char): char
  {
    if 'A' <= c <= 'Z' then (c as int + 32) as char
    else if c == KelvinSign then 'k'
    else c
  }

  /** `str.lower()` as far as the ASCII letters it produces go. */
  function Lower(s: string): (r: string)
    ensures |r| == |s|
  {
    seq(|s|, i requires 0 <= i < |s| => LowerChar(s[i]))
  }

  /** `sep.join(parts)`. */
  function Join(parts: seq<string>, sep: string): string
    decreases |parts|
  {
    if |parts| == 0 then ""
    else if |parts| == 1 then parts[0]
    else parts[0] + sep + Join(parts[1..], sep)
  }

  /** A join of at least one part starts with the first part. */
  lemma JoinStartsWithHead(parts: seq<string>, sep: string)
    requires |parts| >= 1
    ensures StartsWith(Join(parts, sep), parts[0])
  {
    if |parts| > 1 {
      var j := Join(parts, sep);
      assert j == parts[0] + (sep + Join(parts[1..], sep));
      assert j[..|parts[0]|] == parts[0];
    }
  }

  /** Every part occurs in the join. */
  lemma {:induction false} JoinContains(parts: seq<string>, sep: string, i: nat)
    requires i < |parts|
    ensures Contains(Join(parts, sep), parts[i])
    decreases |parts|
  {
    if |parts| == 1 {
      ContainsAt(parts[0], parts[0], 0);
    } else if i == 0 {
      JoinStartsWithHead(parts, sep);
      ContainsAt(Join(parts, sep), parts[0], 0);
    } else {
      JoinContains(parts[1..], sep, i - 1);
      assert Join(parts, sep) == (parts[0] + sep) + Join(parts[1..], sep);
      ContainsConcat(parts[0] + sep, Join(parts[1..], sep), parts[i]);
    }
  }

  /** Index of the first occurrence of `t` in `s`, if any. */
  function IndexOf(s: string, t: string): (r: Option<nat>)
    ensures r.Some? ==> r.value + |t| <= |s| && s[r.value..r.value + |t|] == t
    decreases |s|
  {
    if StartsWith(s, t) then Some(0)
    else if s == [] then None
    else match IndexOf(s[1..], t)
      case None => None
      case Some(i) => Some(i + 1)
  }

  /** `s.split(sep)` for a non-empty separator: cut at each occurrence, scanning left to right. */
  function Split(s: string, sep: string): (parts: seq<string>)
    requires sep != []
    ensures |parts| >= 1
    ensures Join(parts, sep) == s
    decreases |s|
  {
    match IndexOf(s, sep)
    case None => [s]
    case Some(i) =>
      var rest := Split(s[i + |sep|..], sep);
      var parts := [s[..i]] + rest;
      assert parts[0] == s[..i] && parts[1..] == rest;
      assert s == s[..i] + sep + s[i + |sep|..];
      parts
  }

  function Digit(d: nat): char
    requires d < 10
  {
    "0123456789"[d]
  }

  predicate IsDigit(c: char)
  {
    '0' <= c <= '9'
  }

  /** `str(n)` for a natural number. */
  function NatToString(n: nat): (r: string)
    ensures |r| >= 1
    ensures forall i :: 0 <= i < |r| ==> IsDigit(r[i])
  {
    if n < 10 then [Digit(n)] else NatToString(n / 10) + [Digit(n % 10)]
  }

  /** `str(i)` for an integer. */
  function IntToString(i: int): (r: string)
    ensures |r| >= 1
    ensures (r[0] == '-') == (i < 0)
  {
    if i < 0 then "-" + NatToString(-i) else NatToString(i)
  }

  /** The part of `s` after its last '/', i.e. the last component of a path without trailing slash. */
  function LastSegment(s: string): (r: string)
    ensures |r| <= |s|
    decreases |s|
  {
    if s == [] || s[|s| - 1] == '/' then [] else LastSegment(s[..|s| - 1]) + [s[|s| - 1]]
  }

  /** The last segment is a suffix without any '/'. */
  lemma {:induction false} LastSegmentSpec(s: string)
    ensures var r := LastSegment(s);
            r == s[|s| - |r|..] && forall i :: 0 <= i < |r| ==> r[i] != '/'
    decreases |s|
  {
    if !(s == [] || s[|s| - 1] == '/') {
      var p := s[..|s| - 1];
      LastSegmentSpec(p);
      var rp := LastSegment(p);
      var r := LastSegment(s);
      assert r == rp + [s[|s| - 1]];
      assert s[|s| - |r|..] == p[|p| - |rp|..] + [s[|s| - 1]];
      forall i | 0 <= i < |r| ensures r[i] != '/' {
        if i < |rp| {
          assert r[i] == rp[i];
        }
      }
    }
  }

  /** What `pathlib` ignores at the end of a path: trailing '/' characters and "." components. */
  function DropEmptyTail(s: string): (r: string)
    ensures |r| <= |s|
    decreases |s|
  {
    if s != [] && s[|s| - 1] == '/' then DropEmptyTail(s[..|s| - 1])
    else if s == "." then []
    else if |s| >= 2 && s[|s| - 2..] == "/." then DropEmptyTail(s[..|s| - 1])
    else s
  }

  /** `pathlib.Path(p).name`. */
  function PathName(p: string): string
  {
    LastSegment(DropEmptyTail(p))
  }

  /** A path's name holds no '/'. */
  lemma PathNameNoSlash(p: string)
    ensures forall i :: 0 <= i < |PathName(p)| ==> PathName(p)[i] != '/'
  {
    LastSegmentSpec(DropEmptyTail(p));
  }

  /** The last segment after a '/' is the part after it, when that holds no '/'. */
  lemma {:induction false} LastSegmentAfterSlash(dir: string, name: string)
    requires forall i :: 0 <= i < |name| ==> name[i] != '/'
    ensures LastSegment(dir + "/" + name) == name
    decreases |name|
  {
    var s := dir + "/" + name;
    if name == [] {
      assert s[|s| - 1] == '/';
    } else {
      var init := name[..|name| - 1];
      LastSegmentAfterSlash(dir, init);
      assert s[..|s| - 1] == dir + "/" + init;
      assert s[|s| - 1] == name[|name| - 1];
      assert name == init + [name[|name| - 1]];
    }
  }

  /** The name of a file `dir/name` is `name`, for a name that is neither empty nor "." and holds no '/'. */
  lemma PathNameOfFile(dir: string, name: string)
    requires name != "" && name != "." && forall i :: 0 <= i < |name| ==> name[i] != '/'
    ensures PathName(dir + "/" + name) == name
  {
    var s := dir + "/" + name;
    assert s[|s| - 1] == name[|name| - 1] != '/';
    assert s != "." by {
      assert |s| >= 2;
    }
    assert s[|s| - 2..] != "/." by {
      if |name| == 1 {
        assert s[|s| - 2..] == "/" + name;
      } else {
        assert s[|s| - 2] == name[|name| - 2] != '/';
      }
    }
    LastSegmentAfterSlash(dir, name);
  }

  /** A "." component names nothing: the name is that of the directory holding it. */
  lemma PathNameSkipsDot()
    ensures PathName("images/a/.") == "a" && PathName("images/a/./") == "a" && PathName(".") == ""
  {
    assert "images/a/."[8..] == "/.";
    assert "images/a/./"[..10] == "images/a/.";
    assert "images/a/."[..9] == "images/a/";
    assert "images/a/"[..8] == "images/a";
    assert LastSegment("images/a") == "a" by {
      assert "images/a"[..7] == "images/";
    }
  }

  /** Index of the last occurrence of `c` in `s`, if any (`str.rfind`). */
  function LastIndexOf(s: string, c: char): (r: Option<nat>)
    ensures r.Some? ==> r.value < |s|
    decreases |s|
  {
    if s == [] then None
    else if s[|s| - 1] == c then Some(|s| - 1)
    else LastIndexOf(s[..|s| - 1], c)
  }

  /** `rfind` finds `c` and no later `c`, or reports that there is none. */
  lemma {:induction false} LastIndexOfSpec(s: string, c: char)
    ensures var r := LastIndexOf(s, c);
            && (r.Some? ==> s[r.value] == c && forall j :: r.value < j < |s| ==> s[j] != c)
            && (r.None? ==> forall j :: 0 <= j < |s| ==> s[j] != c)
    decreases |s|
  {
    if s != [] && s[|s| - 1] != c {
      LastIndexOfSpec(s[..|s| - 1], c);
    }
  }

  /** `pathlib.Path(p).stem`: the name without its last suffix (a leading or final dot is no suffix). */
  function PathStem(p: string): string
  {
    var name := PathName(p);
    match LastIndexOf(name, '.')
    case Some(i) => if 0 < i < |name| - 1 then name[..i] else name
    case None => name
  }
}
