/** String helpers with the meaning of the Python `str` operations the
    system uses: `in`, `find`, `split`, `startswith`, `strip`, `lower`,
    `count`, `replace`, `join`, slicing and `str(int)`. */
module Text {
  import opened Wrappers

  predicate StartsWith(s: string, p: string) {
    |p| <= |s| && s[..|p|] == p
  }

  predicate EndsWith(s: string, p: string) {
    |p| <= |s| && s[|s| - |p|..] == p
  }

  /** `s` ends with `block` immediately followed by `closing`. */
  predicate EndsWithThen(s: string, block: string, closing: string) {
    EndsWith(s, closing) && EndsWith(s[..|s| - |closing|], block)
  }

  /** `sub` occurs in `s` starting at index `i`. */
  predicate OccursAt(s: string, sub: string, i: int) {
    0 <= i && i + |sub| <= |s| && s[i..i + |sub|] == sub
  }

  /** First occurrence of `sub` at or after `i` (Python's `s.find(sub, i)`). */
  function FindFrom(s: string, sub: string, i: nat): (r: Option<nat>)
    requires i <= |s|
    ensures r.Some? ==> i <= r.value && OccursAt(s, sub, r.value)
    ensures r.Some? ==> forall j :: i <= j < r.value ==> !OccursAt(s, sub, j)
    ensures r.None? ==> forall j :: i <= j ==> !OccursAt(s, sub, j)
    decreases |s| - i
  {
    if OccursAt(s, sub, i) then Some(i)
    else if i == |s| then None
    else FindFrom(s, sub, i + 1)
  }

  /** First occurrence of `sub` in `s`, if any. */
  function Find(s: string, sub: string): (r: Option<nat>)
    ensures r.Some? ==> OccursAt(s, sub, r.value) && forall j :: 0 <= j < r.value ==> !OccursAt(s, sub, j)
    ensures r.None? ==> forall j :: !OccursAt(s, sub, j)
  {
    FindFrom(s, sub, 0)
  }

  /** Python's `sub in s`. */
  predicate Contains(s: string, sub: string) {
    Find(s, sub).Some?
  }

  lemma ContainsIff(s: string, sub: string)
    ensures Contains(s, sub) <==> exists i :: OccursAt(s, sub, i)
  {
    if !Contains(s, sub) {
      assert forall j :: !OccursAt(s, sub, j);
    }
  }

  /** A one-character string occurs only where that character is. */
  lemma NotContainsChar(s: string, c: char)
    requires forall k :: 0 <= k < |s| ==> s[k] != c
    ensures !Contains(s, [c])
  {
    forall i ensures !OccursAt(s, [c], i) {
      if 0 <= i < |s| {
        assert s[i..i + 1][0] == s[i];
      }
    }
  }

  lemma ContainsAt(s: string, sub: string, i: int)
    requires OccursAt(s, sub, i)
    ensures Contains(s, sub)
  {
    ContainsIff(s, sub);
  }

  /** Python's `s.split(sep)[0]`: the text before the first `sep`, or all of `s`. */
  function Before(s: string, sep: string): (r: string)
    ensures Contains(s, sep) ==> r == s[..Find(s, sep).value]
    ensures !Contains(s, sep) ==> r == s
  {
    match Find(s, sep)
    case Some(i) => s[..i]
    case None => s
  }

  /** The text after the first `sep` (Python's `s.split(sep, 1)[1]`). */
  function After(s: string, sep: string): (r: string)
    requires Contains(s, sep)
    ensures r == s[Find(s, sep).value + |sep|..]
  {
    var i := Find(s, sep).value;
    s[i + |sep|..]
  }

  /** When nothing in `pre` can start `sub`, the first `sub` in `pre + rest`
      is the one `rest` starts with. */
  lemma FindPastPrefix(pre: string, rest: string, sub: string)
    requires |sub| > 0 && StartsWith(rest, sub)
    requires forall k :: 0 <= k < |pre| ==> pre[k] != sub[0]
    ensures Find(pre + rest, sub) == Some(|pre|)
  {
    var s := pre + rest;
    assert OccursAt(s, sub, |pre|) by {
      assert s[|pre|..|pre| + |sub|] == rest[..|sub|];
    }
    forall j | 0 <= j < |pre| ensures !OccursAt(s, sub, j) {
      if j + |sub| <= |s| {
        assert s[j..j + |sub|][0] == pre[j];
      }
    }
  }

  /** The text before the first `sep` holds no `sep`. */
  lemma BeforeHasNoSep(s: string, sep: string)
    requires |sep| > 0
    ensures !Contains(Before(s, sep), sep)
  {
    var b := Before(s, sep);
    match Find(s, sep)
    case None =>
      assert b == s;
    case Some(i) =>
      assert b == s[..i];
      forall j | 0 <= j && j + |sep| <= |b| ensures !OccursAt(b, sep, j) {
        assert j < i && !OccursAt(s, sep, j);
        assert b[j..j + |sep|] == s[j..j + |sep|];
      }
  }

  /** Python's `s.split(sep)[1]`: the text between the first and the second
      `sep`, or to the end when there is no second one. */
  function SecondPart(s: string, sep: string): string
    requires Contains(s, sep)
  {
    Before(After(s, sep), sep)
  }

  /** Python's `s.split('\n')`. */
  function Lines(s: string): (r: seq<string>)
    ensures |r| >= 1
    ensures forall k :: 0 <= k < |r| ==> '\n' !in r[k]
    decreases |s|
  {
    match Find(s, "\n")
    case None =>
      assert forall k :: 0 <= k < |s| ==> s[k] != '\n' by {
        forall k | 0 <= k < |s| ensures s[k] != '\n' { assert !OccursAt(s, "\n", k); }
      }
      [s]
    case Some(i) =>
      assert forall k :: 0 <= k < i ==> s[k] != '\n' by {
        forall k | 0 <= k < i ensures s[k] != '\n' { assert !OccursAt(s, "\n", k); }
      }
      [s[..i]] + Lines(s[i + 1..])
  }

  /** Python's `sep.join(parts)`. */
  function Join(sep: string, parts: seq<string>): string
    decreases |parts|
  {
    if |parts| == 0 then ""
    else if |parts| == 1 then parts[0]
    else parts[0] + sep + Join(sep, parts[1..])
  }

  /** Splitting on newlines and joining them back gives the original text. */
  lemma {:induction false} JoinLines(s: string)
    ensures Join("\n", Lines(s)) == s
    decreases |s|
  {
    match Find(s, "\n")
    case None =>
    case Some(i) =>
      var rest := s[i + 1..];
      var lines := Lines(rest);
      JoinLines(rest);
      assert Lines(s) == [s[..i]] + lines;
      assert Join("\n", [s[..i]] + lines) == s[..i] + "\n" + Join("\n", lines) by {
        assert ([s[..i]] + lines)[1..] == lines;
      }
      assert s[i] == '\n' by { assert OccursAt(s, "\n", i); }
      assert s == s[..i] + "\n" + rest;
  }

  /** Concatenation of all parts. */
  function Concat(parts: seq<string>): string
    decreases |parts|
  {
    if parts == [] then "" else Concat(parts[..|parts| - 1]) + parts[|parts| - 1]
  }

  /** Python's `s[:n]`. */
  function Prefix(s: string, n: nat): (r: string)
    ensures |r| == if n < |s| then n else |s|
    ensures StartsWith(s, r)
  {
    if n < |s| then s[..n] else s
  }

  /** The whitespace characters `str.strip()` removes (the ASCII ones). */
  predicate IsSpace(c: char) {
    c == ' ' || c == '\t' || c == '\n' || c == '\r' || c == '\U{0B}' || c == '\U{0C}'
    || ('\U{1C}' <= c <= '\U{1F}')
  }

  function TrimLeft(s: string): string
    decreases |s|
  {
    if s != [] && IsSpace(s[0]) then TrimLeft(s[1..]) else s
  }

  function TrimRight(s: string): string
    decreases |s|
  {
    if s != [] && IsSpace(s[|s| - 1]) then TrimRight(s[..|s| - 1]) else s
  }

  /** Python's `s.strip()`. */
  function Strip(s: string): string {
    TrimRight(TrimLeft(s))
  }

  /** `TrimLeft` drops leading whitespace and nothing else. */
  lemma {:induction false} TrimLeftDropsSpaces(s: string)
    ensures |TrimLeft(s)| <= |s| && TrimLeft(s) == s[|s| - |TrimLeft(s)|..]
    ensures forall k :: 0 <= k < |s| - |TrimLeft(s)| ==> IsSpace(s[k])
    ensures TrimLeft(s) != [] ==> !IsSpace(TrimLeft(s)[0])
    decreases |s|
  {
    if s != [] && IsSpace(s[0]) {
      TrimLeftDropsSpaces(s[1..]);
    }
  }

  /** `TrimRight` drops trailing whitespace and nothing else. */
  lemma {:induction false} TrimRightDropsSpaces(s: string)
    ensures |TrimRight(s)| <= |s| && TrimRight(s) == s[..|TrimRight(s)|]
    ensures forall k :: |TrimRight(s)| <= k < |s| ==> IsSpace(s[k])
    ensures TrimRight(s) != [] ==> !IsSpace(TrimRight(s)[|TrimRight(s)| - 1])
    decreases |s|
  {
    if s != [] && IsSpace(s[|s| - 1]) {
      TrimRightDropsSpaces(s[..|s| - 1]);
    }
  }

  /** Text that neither starts nor ends with whitespace is its own strip. */
  lemma StripUnchanged(s: string)
    requires s == [] || (!IsSpace(s[0]) && !IsSpace(s[|s| - 1]))
    ensures Strip(s) == s
  {
  }

  /** `Strip` removes whitespace from both ends and nothing else: the result
      is a slice of the input that neither starts nor ends with whitespace. */
  lemma StripIsTrimmedSlice(s: string)
    ensures exists i, j :: (0 <= i <= j <= |s| && Strip(s) == s[i..j]
      && (forall k :: 0 <= k < i ==> IsSpace(s[k]))
      && (forall k :: j <= k < |s| ==> IsSpace(s[k])))
    ensures Strip(s) != [] ==> !IsSpace(Strip(s)[0]) && !IsSpace(Strip(s)[|Strip(s)| - 1])
  {
    var l := TrimLeft(s);
    TrimLeftDropsSpaces(s);
    var r := TrimRight(l);
    TrimRightDropsSpaces(l);
    var i := |s| - |l|;
    var j := i + |r|;
    assert l == s[i..];
    assert r == l[..|r|];
    assert r == s[i..j];
    forall k | j <= k < |s| ensures IsSpace(s[k]) {
      assert s[k] == l[k - i];
    }
    if r != [] {
      assert r[0] == l[0];
    }
  }

  /** Stripping twice is the same as stripping once. */
  lemma StripIdempotent(s: string)
    ensures Strip(Strip(s)) == Strip(s)
  {
    var l := TrimLeft(s);
    TrimLeftDropsSpaces(s);
    var r := TrimRight(l);
    TrimRightDropsSpaces(l);
    assert TrimLeft(r) == r by {
      if r != [] { assert r[0] == l[0]; }
    }
    TrimRightDropsSpaces(r);
    if r != [] {
      assert TrimRight(r) == r;
    }
  }

  function LowerChar(c: char): char {
    if 'A' <= c <= 'Z' then (c as int - 'A' as int + 'a' as int) as char else c
  }

  /** Python's `s.lower()` on ASCII letters. */
  function Lower(s: string): (r: string)
    ensures |r| == |s|
    ensures forall k :: 0 <= k < |s| ==> r[k] == LowerChar(s[k])
  {
    seq(|s|, k requires 0 <= k < |s| => LowerChar(s[k]))
  }

  /** Python's `s.replace(a, b)` for single characters. */
  function ReplaceChar(s: string, a: char, b: char): (r: string)
    ensures |r| == |s|
    ensures forall k :: 0 <= k < |s| ==> r[k] == if s[k] == a then b else s[k]
  {
    seq(|s|, k requires 0 <= k < |s| => if s[k] == a then b else s[k])
  }

  predicate IsDigit(c: char) {
    '0' <= c <= '9'
  }

  /** Python's `s.isdigit()` on ASCII digits: non-empty and all digits. */
  predicate AllDigits(s: string) {
    |s| > 0 && forall k :: 0 <= k < |s| ==> IsDigit(s[k])
  }

  function DigitChar(d: nat): (c: char)
    requires d < 10
    ensures IsDigit(c) && c as int - '0' as int == d
  {
    ('0' as int + d) as char
  }

  /** Python's `str(n)` for a natural number. */
  function NatToString(n: nat): (r: string)
    ensures AllDigits(r)
    ensures |r| == 1 || r[0] != '0'
    decreases n
  {
    if n < 10 then [DigitChar(n)] else NatToString(n / 10) + [DigitChar(n % 10)]
  }

  /** Python's `str(i)` for an integer. */
  function IntToString(i: int): string {
    if i < 0 then "-" + NatToString(-i) else NatToString(i)
  }

  /** Python's `int(s)` on a string of ASCII digits. */
  function DigitsValue(s: string): nat
    requires forall k :: 0 <= k < |s| ==> IsDigit(s[k])
    decreases |s|
  {
    if s == [] then 0
    else
      assert IsDigit(s[|s| - 1]);
      DigitsValue(s[..|s| - 1]) * 10 + (s[|s| - 1] as int - '0' as int)
  }

  /** Reading back the decimal rendering of `n` gives `n`. */
  lemma {:induction false} NatToStringRoundTrip(n: nat)
    ensures DigitsValue(NatToString(n)) == n
    decreases n
  {
    if n >= 10 {
      NatToStringRoundTrip(n / 10);
      var r := NatToString(n);
      assert r[..|r| - 1] == NatToString(n / 10);
    }
  }

  /** Python's `s.count(sub)` for a non-empty `sub`: non-overlapping occurrences. */
  function Count(s: string, sub: string): (r: nat)
    requires |sub| > 0
    ensures r == 0 <==> !Contains(s, sub)
    decreases |s|
  {
    match Find(s, sub)
    case None => 0
    case Some(i) => 1 + Count(s[i + |sub|..], sub)
  }

  /** A text that starts with `sub` counts one occurrence more than the
      rest after it. */
  lemma CountLeading(sub: string, rest: string)
    requires |sub| > 0
    ensures Count(sub + rest, sub) == 1 + Count(rest, sub)
  {
    var s := sub + rest;
    assert OccursAt(s, sub, 0) by { assert s[..|sub|] == sub; }
    assert Find(s, sub) == Some(0);
    assert s[|sub|..] == rest;
  }

  /** Text in which the first character of `sub` never occurs adds no
      occurrence in front of another text. */
  lemma CountSkipsPrefix(pre: string, rest: string, sub: string)
    requires |sub| > 0 && forall k :: 0 <= k < |pre| ==> pre[k] != sub[0]
    ensures Count(pre + rest, sub) == Count(rest, sub)
  {
    var s := pre + rest;
    FindSkipsPrefix(pre, rest, sub);
    if Find(rest, sub).Some? {
      var i := Find(rest, sub).value;
      var t := rest[i + |sub|..];
      CountAt(rest, sub, i, t);
      assert s[|pre| + i + |sub|..] == t;
      CountAt(s, sub, |pre| + i, t);
    } else {
      CountNone(rest, sub);
      CountNone(s, sub);
      assert Count(s, sub) == Count(rest, sub);
    }
  }

  /** One step of `Count`: the first occurrence, then the text after it. */
  lemma CountAt(s: string, sub: string, i: nat, after: string)
    requires |sub| > 0 && Find(s, sub) == Some(i) && after == s[i + |sub|..]
    ensures Count(s, sub) == 1 + Count(after, sub)
  {
  }

  lemma CountNone(s: string, sub: string)
    requires |sub| > 0 && Find(s, sub).None?
    ensures Count(s, sub) == 0
  {
  }

  /** The first occurrence in `pre + rest` is the first one in `rest`,
      shifted, when nothing in `pre` can start `sub`. */
  lemma FindSkipsPrefix(pre: string, rest: string, sub: string)
    requires |sub| > 0 && forall k :: 0 <= k < |pre| ==> pre[k] != sub[0]
    ensures Find(rest, sub).None? ==> Find(pre + rest, sub).None?
    ensures Find(rest, sub).Some? ==> Find(pre + rest, sub) == Some(|pre| + Find(rest, sub).value)
  {
    var s := pre + rest;
    forall j | 0 <= j < |pre| ensures !OccursAt(s, sub, j) {
      assert j + |sub| <= |s| ==> s[j..j + |sub|][0] == pre[j];
    }
    forall j | |pre| <= j && OccursAt(s, sub, j) ensures OccursAt(rest, sub, j - |pre|) {
      assert s[j..j + |sub|] == rest[j - |pre|..j - |pre| + |sub|];
    }
    if Find(rest, sub).Some? {
      var i := Find(rest, sub).value;
      assert OccursAt(s, sub, |pre| + i) by {
        assert s[|pre| + i..|pre| + i + |sub|] == rest[i..i + |sub|];
      }
      FindFirst(s, sub, |pre| + i);
    } else {
      FindNone(s, sub);
    }
  }

  /** An occurrence with none before it is the one `Find` reports. */
  lemma FindFirst(s: string, sub: string, i: nat)
    requires OccursAt(s, sub, i) && forall j :: 0 <= j < i ==> !OccursAt(s, sub, j)
    ensures Find(s, sub) == Some(i)
  {
  }

  /** Without any occurrence `Find` reports none. */
  lemma FindNone(s: string, sub: string)
    requires forall j :: !OccursAt(s, sub, j)
    ensures Find(s, sub).None?
  {
  }

  /** Appending text that adds no occurrence leaves the first occurrence where it was. */
  lemma FindInPrefix(s: string, t: string, sub: string)
    requires Contains(s, sub)
    ensures Find(s + t, sub) == Find(s, sub)
  {
    var i := Find(s, sub).value;
    assert OccursAt(s + t, sub, i) by {
      assert (s + t)[i..i + |sub|] == s[i..i + |sub|];
    }
    forall j | 0 <= j < i ensures !OccursAt(s + t, sub, j) {
      if OccursAt(s + t, sub, j) {
        assert j + |sub| <= i + |sub| <= |s|;
        assert (s + t)[j..j + |sub|] == s[j..j + |sub|];
        assert OccursAt(s, sub, j);
      }
    }
  }

  /** The middle part of a concatenation occurs right after the first part. */
  lemma OccursInMiddle(x: string, y: string, z: string)
    ensures OccursAt(x + y + z, y, |x|)
    ensures StartsWith(x + y + z, x) && EndsWith(x + y + z, z)
  {
    assert (x + y + z)[|x|..|x| + |y|] == y;
    assert (x + y + z)[..|x|] == x;
    assert (x + y + z)[|x + y|..] == z;
  }

  /** Where a text occurs, so does every prefix of it. */
  lemma OccursPrefix(s: string, t: string, u: string, i: int)
    requires OccursAt(s, t, i) && StartsWith(t, u)
    ensures OccursAt(s, u, i)
  {
    assert s[i..i + |u|] == s[i..i + |t|][..|u|];
  }

  lemma StartsWithAppend(s: string, t: string)
    ensures StartsWith(s + t, s)
  {
    assert (s + t)[..|s|] == s;
  }

  lemma EndsWithAppend(s: string, t: string, u: string)
    requires EndsWith(t, u)
    ensures EndsWith(s + t, u)
  {
    assert (s + t)[|s + t| - |u|..] == t[|t| - |u|..];
  }

  lemma StartsWithTrans(s: string, t: string, u: string)
    requires StartsWith(s, t) && StartsWith(t, u)
    ensures StartsWith(s, u)
  {
    assert s[..|u|] == s[..|t|][..|u|];
  }

  lemma EndsWithTrans(s: string, t: string, u: string)
    requires EndsWith(s, t) && EndsWith(t, u)
    ensures EndsWith(s, u)
  {
    assert s[|s| - |u|..] == s[|s| - |t|..][|t| - |u|..];
  }

  /** Text that occurs in `s` still occurs there once more is appended. */
  lemma OccursExtended(s: string, t: string, sub: string, i: int)
    requires OccursAt(s, sub, i)
    ensures OccursAt(s + t, sub, i)
  {
    assert (s + t)[i..i + |sub|] == s[i..i + |sub|];
  }

  /** The middle of a text that occurs occurs right after its first part. */
  lemma OccursMiddle(s: string, x: string, y: string, z: string, i: int)
    requires OccursAt(s, x + y + z, i)
    ensures OccursAt(s, y, i + |x|)
  {
    var t := x + y + z;
    assert s[i..i + |t|] == t;
    forall k | 0 <= k < |y| ensures s[i + |x| + k] == y[k] {
      assert s[i + |x| + k] == s[i..i + |t|][|x| + k];
      assert t[|x| + k] == y[k];
    }
    assert s[i + |x|..i + |x| + |y|] == y;
  }

  /** The first `k` parts of a concatenation are a prefix of it. */
  lemma {:induction false} ConcatPrefix(parts: seq<string>, k: nat)
    requires k <= |parts|
    ensures StartsWith(Concat(parts), Concat(parts[..k]))
    decreases |parts|
  {
    if k < |parts| {
      var init := parts[..|parts| - 1];
      ConcatPrefix(init, k);
      assert init[..k] == parts[..k];
      assert Concat(parts) == Concat(init) + parts[|parts| - 1];
      var c := Concat(parts[..k]);
      assert Concat(parts)[..|c|] == Concat(init)[..|c|];
    } else {
      assert parts[..k] == parts;
    }
  }

  /** A concatenation of the first `i + 1` parts is that of the first `i`
      followed by part `i`. */
  lemma ConcatNext(parts: seq<string>, i: nat)
    requires i < |parts|
    ensures Concat(parts[..i + 1]) == Concat(parts[..i]) + parts[i]
  {
    assert parts[..i + 1][..i] == parts[..i];
  }

  /** A concatenation of non-empty parts is empty only when there are none. */
  lemma {:induction false} ConcatNonEmpty(parts: seq<string>)
    requires forall k :: 0 <= k < |parts| ==> parts[k] != ""
    ensures Concat(parts) == "" <==> parts == []
    decreases |parts|
  {
    if parts != [] {
      ConcatNonEmpty(parts[..|parts| - 1]);
    }
  }

  /** Part `k` of a concatenation sits right after the parts before it. */
  lemma ConcatPartAt(parts: seq<string>, k: nat)
    requires k < |parts|
    ensures OccursAt(Concat(parts), parts[k], |Concat(parts[..k])|)
    ensures |Concat(parts[..k])| + |parts[k]| == |Concat(parts[..k + 1])|
  {
    assert parts[..k + 1][..k] == parts[..k];
    assert Concat(parts[..k + 1]) == Concat(parts[..k]) + parts[k];
    ConcatPrefix(parts, k + 1);
    var c := Concat(parts[..k]);
    assert Concat(parts[..k + 1])[|c|..|c| + |parts[k]|] == parts[k];
  }

  /** Where a part is made of three pieces, its middle piece occurs in the
      concatenation right after the parts before it and the first piece. */
  lemma PartMiddle(parts: seq<string>, n: nat, x: string, y: string, z: string) returns (k: int)
    requires n < |parts| && parts[n] == x + y + z
    ensures k == |Concat(parts[..n])| + |x| && OccursAt(Concat(parts), y, k)
    ensures |Concat(parts[..n])| + |parts[n]| == |Concat(parts[..n + 1])|
  {
    ConcatPartAt(parts, n);
    OccursMiddle(Concat(parts), x, y, z, |Concat(parts[..n])|);
    k := |Concat(parts[..n])| + |x|;
  }

  lemma ConcatOrder(parts: seq<string>, j: nat, k: nat)
    requires j < k <= |parts|
    ensures |Concat(parts[..j])| + |parts[j]| <= |Concat(parts[..k])|
  {
    ConcatPartAt(parts, j);
    ConcatPrefix(parts[..k], j + 1);
    assert parts[..k][..j + 1] == parts[..j + 1];
  }

  /** Three non-empty parts occur in the concatenation in their order. */
  lemma ConcatThreeInOrder(parts: seq<string>, a: nat, b: nat, c: nat)
    requires a < b < c < |parts| && parts[a] != [] && parts[b] != []
    ensures exists i, j, k :: (i < j < k && i + |parts[a]| <= j && j + |parts[b]| <= k
      && OccursAt(Concat(parts), parts[a], i)
      && OccursAt(Concat(parts), parts[b], j)
      && OccursAt(Concat(parts), parts[c], k))
  {
    ConcatPartAt(parts, a);
    ConcatPartAt(parts, b);
    ConcatPartAt(parts, c);
    ConcatOrder(parts, a, b);
    ConcatOrder(parts, b, c);
    var i, j, k := |Concat(parts[..a])|, |Concat(parts[..b])|, |Concat(parts[..c])|;
    assert i < j < k;
  }

  /** The last part of a concatenation ends it; the first one starts it. */
  lemma ConcatEnds(parts: seq<string>)
    requires |parts| > 0
    ensures StartsWith(Concat(parts), parts[0])
    ensures EndsWith(Concat(parts), parts[|parts| - 1])
  {
    ConcatPartAt(parts, 0);
    assert parts[..0] == [];
    var init := parts[..|parts| - 1];
    assert Concat(parts) == Concat(init) + parts[|parts| - 1];
  }
}
