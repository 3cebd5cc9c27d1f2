// The few Python string built-ins the chat and tool layers rely on:
// `in`, `str.find`, `str.lower`, `str.strip`, `str.split()`, `str.split(sep)`,
// `str.split(sep, 1)` and `str(int)`.

module Optional {
  datatype Option<T> = None | Some(value: T)
}

module PyText {
  import opened Optional

  /** Python's `str.isspace` on one character: exactly the characters that
      `str.strip()` and `str.split()` treat as whitespace. */
  predicate IsSpace(c: char) {
    || ('\t' <= c <= '\r')
    || ('\U{1C}' <= c <= '\U{1F}')
    || c == ' ' || c == '\U{85}' || c == '\U{A0}' || c == '\U{1680}'
    || ('\U{2000}' <= c <= '\U{200A}')
    || c == '\U{2028}' || c == '\U{2029}' || c == '\U{202F}' || c == '\U{205F}' || c == '\U{3000}'
  }

  predicate NoSpace(s: string) {
    forall i :: 0 <= i < |s| ==> !IsSpace(s[i])
  }

  /** `sub` occurs in `s` starting at index `i`. */
  predicate OccursAt(s: string, sub: string, i: nat) {
    i + |sub| <= |s| && s[i..i + |sub|] == sub
  }

  /** Python's `s.find(sub)`: the least index at which `sub` occurs, or -1. */
  function Find(s: string, sub: string): (i: int)
    ensures -1 <= i <= |s|
    ensures i >= 0 ==> OccursAt(s, sub, i)
    ensures i >= 0 ==> forall j: nat :: j < i ==> !OccursAt(s, sub, j)
    ensures i < 0 ==> forall j: nat :: !OccursAt(s, sub, j)
    decreases |s|
  {
    if sub <= s then
      assert s[..|sub|] == sub;
      0
    else if |s| == 0 then -1
    else
      var k := Find(s[1..], sub);
      assert !OccursAt(s, sub, 0);
      if k < 0 then
        ShiftNone(s, sub);
        -1
      else
        ShiftFirst(s, sub, k);
        k + 1
  }

  /** No occurrence at 0 and none in `s[1..]` means none in `s`. */
  lemma ShiftNone(s: string, sub: string)
    requires |s| > 0 && !OccursAt(s, sub, 0)
    requires forall j: nat :: !OccursAt(s[1..], sub, j)
    ensures forall j: nat :: !OccursAt(s, sub, j)
  {
    ShiftOccurrence(s, sub);
    forall j: nat ensures !OccursAt(s, sub, j) {
      if j > 0 { assert OccursAt(s, sub, (j - 1) + 1) <==> OccursAt(s[1..], sub, j - 1); }
    }
  }

  /** No occurrence at 0 and a first one at `k` in `s[1..]` means a first one at `k + 1` in `s`. */
  lemma ShiftFirst(s: string, sub: string, k: nat)
    requires |s| > 0 && !OccursAt(s, sub, 0)
    requires OccursAt(s[1..], sub, k) && forall j: nat :: j < k ==> !OccursAt(s[1..], sub, j)
    ensures OccursAt(s, sub, k + 1) && forall j: nat :: j < k + 1 ==> !OccursAt(s, sub, j)
  {
    ShiftOccurrence(s, sub);
    forall j: nat | j < k + 1 ensures !OccursAt(s, sub, j) {
      if j > 0 { assert OccursAt(s, sub, (j - 1) + 1) <==> OccursAt(s[1..], sub, j - 1); }
    }
  }

  /** An occurrence in `s` past index 0 is an occurrence in `s[1..]`, one to the left. */
  lemma ShiftOccurrence(s: string, sub: string)
    requires |s| > 0
    ensures forall j: nat {:trigger OccursAt(s, sub, j + 1)} :: OccursAt(s, sub, j + 1) <==> OccursAt(s[1..], sub, j)
  {
    forall j: nat ensures OccursAt(s, sub, j + 1) <==> OccursAt(s[1..], sub, j) {
      if j + 1 + |sub| <= |s| {
        assert s[1..][j..j + |sub|] == s[j + 1..j + 1 + |sub|];
      }
    }
  }

  /** Python's `sub in s`. */
  predicate Contains(s: string, sub: string) {
    Find(s, sub) >= 0
  }

  /** An occurrence anywhere makes `in` true. */
  lemma ContainsAt(s: string, sub: string, i: nat)
    requires OccursAt(s, sub, i)
    ensures Contains(s, sub)
  {
  }

  /** Whatever occurs in a suffix of `s` occurs in `s`. */
  lemma ContainsInSuffix(s: string, k: nat, sub: string)
    requires k <= |s| && Contains(s[k..], sub)
    ensures Contains(s, sub)
  {
    var t := s[k..];
    var i := Find(t, sub);
    assert OccursAt(t, sub, i);
    assert t[i..i + |sub|] == s[k + i..k + i + |sub|];
    ContainsAt(s, sub, k + i);
  }

  /** Whatever occurs in a prefix of `s` occurs in `s`. */
  lemma ContainsInPrefix(s: string, k: nat, sub: string)
    requires k <= |s| && Contains(s[..k], sub)
    ensures Contains(s, sub)
  {
    var i := Find(s[..k], sub);
    assert s[..k][i..i + |sub|] == s[i..i + |sub|];
    ContainsAt(s, sub, i);
  }

  /** `x in a + x + b` always holds. */
  lemma {:induction false} ContainsMiddle(a: string, x: string, b: string)
    ensures Contains(a + x + b, x)
  {
    assert (a + x + b)[|a|..|a| + |x|] == x;
    ContainsAt(a + x + b, x, |a|);
  }

  /** Whatever occurs in `x` occurs in any text that has `x` in the middle. */
  lemma ContainsInside(a: string, x: string, b: string, sub: string)
    requires Contains(x, sub)
    ensures Contains(a + x + b, sub)
  {
    assert (a + x)[|a|..] == x;
    ContainsInSuffix(a + x, |a|, sub);
    assert (a + x + b)[..|a + x|] == a + x;
    ContainsInPrefix(a + x + b, |a + x|, sub);
  }

  /** Python's `str.lower`, restricted to ASCII letters. */
  function LowerChar(c: char): (r: char)
    ensures 'A' <= c <= 'Z' ==> r as int == c as int + 32
    ensures !('A' <= c <= 'Z') ==> r == c
  {
    if 'A' <= c <= 'Z' then (c as int + 32) as char else c
  }

  function Lower(s: string): (r: string)
    ensures |r| == |s|
    ensures forall i :: 0 <= i < |s| ==> r[i] == LowerChar(s[i])
  {
    if s == [] then [] else [LowerChar(s[0])] + Lower(s[1..])
  }

  /** Text without capital letters that occurs in `s` also occurs in `s.lower()`. */
  lemma ContainsLowered(s: string, sub: string)
    requires Contains(s, sub)
    requires forall j :: 0 <= j < |sub| ==> !('A' <= sub[j] <= 'Z')
    ensures Contains(Lower(s), sub)
  {
    var i := Find(s, sub);
    assert OccursAt(s, sub, i);
    forall j | 0 <= j < |sub| ensures Lower(s)[i + j] == sub[j] {
      assert s[i + j] == sub[j];
    }
    assert Lower(s)[i..i + |sub|] == sub;
    ContainsAt(Lower(s), sub, i);
  }

  /** Python's `str.lstrip()`: drop leading whitespace. */
  function StripLeft(s: string): (r: string)
    ensures |r| <= |s| && r == s[|s| - |r|..]
    ensures r == [] || !IsSpace(r[0])
    ensures forall i :: 0 <= i < |s| - |r| ==> IsSpace(s[i])
  {
    if |s| > 0 && IsSpace(s[0]) then StripLeft(s[1..]) else s
  }

  /** Python's `str.rstrip()`: drop trailing whitespace. */
  function StripRight(s: string): (r: string)
    ensures |r| <= |s| && r == s[..|r|]
    ensures r == [] || !IsSpace(r[|r| - 1])
    ensures forall i :: |r| <= i < |s| ==> IsSpace(s[i])
  {
    if |s| > 0 && IsSpace(s[|s| - 1]) then StripRight(s[..|s| - 1]) else s
  }

  /** `r` is `s[i..i + |r|]` and everything of `s` around it is whitespace. */
  predicate TrimmedAt(s: string, r: string, i: nat) {
    && i + |r| <= |s| && r == s[i..i + |r|]
    && (forall j :: 0 <= j < i ==> IsSpace(s[j]))
    && (forall j :: i + |r| <= j < |s| ==> IsSpace(s[j]))
  }

  /** Python's `str.strip()`: the text with whitespace removed at both ends. */
  function Strip(s: string): (r: string)
    ensures r == [] || (!IsSpace(r[0]) && !IsSpace(r[|r| - 1]))
    ensures exists i: nat :: TrimmedAt(s, r, i)
  {
    var l := StripLeft(s);
    var r := StripRight(l);
    assert TrimmedAt(s, r, |s| - |l|);
    r
  }

  /** The longest prefix of `s` holding no whitespace. */
  function Token(s: string): (w: string)
    ensures w <= s && NoSpace(w)
    ensures |w| == |s| || IsSpace(s[|w|])
    ensures |s| > 0 && !IsSpace(s[0]) ==> |w| > 0
  {
    if |s| == 0 || IsSpace(s[0]) then [] else [s[0]] + Token(s[1..])
  }

  /** Python's `str.split()` with no separator: the maximal runs of
      non-whitespace characters, in order. */
  function Words(s: string): (ws: seq<string>)
    decreases |s|
  {
    var t := StripLeft(s);
    if t == [] then []
    else
      var w := Token(t);
      [w] + Words(t[|w|..])
  }

  /** Python's `s.split(c)[0]`: the text before the first `c`, or all of it. */
  function BeforeFirst(s: string, c: char): (r: string)
    ensures r <= s && c !in r
    ensures |r| < |s| ==> s[|r|] == c
  {
    var i := Find(s, [c]);
    if i < 0 then
      assert forall j :: 0 <= j < |s| ==> s[j] != c by {
        forall j | 0 <= j < |s| ensures s[j] != c {
          assert !OccursAt(s, [c], j);
        }
      }
      s
    else
      assert OccursAt(s, [c], i);
      assert forall j :: 0 <= j < i ==> s[j] != c by {
        forall j | 0 <= j < i ensures s[j] != c {
          assert !OccursAt(s, [c], j);
        }
      }
      s[..i]
  }

  /** Python's `s.split(sep, 1)[1]` when the split has two parts: the text
      after the first `sep`; `None` when `sep` does not occur. */
  function AfterFirst(s: string, sep: string): (r: Option<string>)
    ensures r.Some? <==> Contains(s, sep)
    ensures r.Some? ==> exists i: nat :: OccursAt(s, sep, i) && r.value == s[i + |sep|..]
                                         && forall j: nat :: j < i ==> !OccursAt(s, sep, j)
  {
    var i := Find(s, sep);
    if i < 0 then None else Some(s[i + |sep|..])
  }

  function DigitChar(d: nat): (c: char)
    requires d < 10
    ensures '0' <= c <= '9'
  {
    ('0' as int + d) as char
  }

  predicate IsDigits(s: string) {
    forall i :: 0 <= i < |s| ==> '0' <= s[i] <= '9'
  }

  /** Python's `str(n)` for a natural number: decimal digits, no leading zero. */
  function NatText(n: nat): (r: string)
    ensures |r| >= 1 && IsDigits(r)
    ensures n > 0 ==> r[0] != '0'
  {
    if n < 10 then [DigitChar(n)] else NatText(n / 10) + [DigitChar(n % 10)]
  }

  /** Python's `str(i)` for an integer. */
  function IntText(i: int): string
  {
    if i < 0 then "-" + NatText(-i) else NatText(i)
  }
}
