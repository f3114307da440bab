/**
 * Text operations of Python's `str` and `re` that the core relies on:
 * `strip()`, substring tests, `startswith`, `upper()`, `str.replace(p, "")`,
 * `re.sub` of a literal pattern with an optional trailing newline,
 * `re.split(..., maxsplit=1)` on a case-insensitive literal, `sep.join(...)`
 * and `str(n)` for a natural number.
 */
module Strings {
  import opened Wrappers

  /** Python truthiness of an optional text: present and non-empty. */
  predicate TruthyText(t: Option<string>) {
    t.Some? && t.value != ""
  }

  /** Python's `str.isspace` for one character; `strip()` and the regex class `\s` use this set. */
  predicate IsSpace(c: char) {
    c == ' ' || ('\t' <= c <= '\r') || ('\U{1C}' <= c <= '\U{1F}') || c == '\U{85}' || c == '\U{A0}'
    || c == '\U{1680}' || ('\U{2000}' <= c <= '\U{200A}') || c == '\U{2028}' || c == '\U{2029}'
    || c == '\U{202F}' || c == '\U{205F}' || c == '\U{3000}'
  }

  predicate AllSpace(s: string) {
    forall i :: 0 <= i < |s| ==> IsSpace(s[i])
  }

  /** A string that `strip()` leaves unchanged. */
  predicate IsTrimmed(s: string) {
    s == [] || (!IsSpace(s[0]) && !IsSpace(s[|s| - 1]))
  }

  /** The index of the first non-whitespace character at or after `i`, or `|s|`. */
  function SkipSpace(s: string, i: nat): (r: nat)
    requires i <= |s|
    ensures i <= r <= |s|
    ensures forall k :: i <= k < r ==> IsSpace(s[k])
    ensures r == |s| || !IsSpace(s[r])
    decreases |s| - i
  {
    if i < |s| && IsSpace(s[i]) then SkipSpace(s, i + 1) else i
  }

  /** The index just past the last non-whitespace character before `j`, but not below `lo`. */
  function TrimEnd(s: string, lo: nat, j: nat): (r: nat)
    requires lo <= j <= |s|
    ensures lo <= r <= j
    ensures forall k :: r <= k < j ==> IsSpace(s[k])
    ensures r == lo || !IsSpace(s[r - 1])
    decreases j
  {
    if j > lo && IsSpace(s[j - 1]) then TrimEnd(s, lo, j - 1) else j
  }

  /** `str.lstrip()`: the suffix left after dropping leading whitespace. */
  function LStrip(s: string): (r: string)
    ensures |r| <= |s| && r == s[|s| - |r|..]
    ensures forall k :: 0 <= k < |s| - |r| ==> IsSpace(s[k])
    ensures r == [] || !IsSpace(r[0])
  {
    s[SkipSpace(s, 0)..]
  }

  /** `r` sits at position `i` of `s` with only whitespace before and after it. */
  predicate PaddedAt(s: string, r: string, i: int) {
    0 <= i && i + |r| <= |s| && s[i..i + |r|] == r
    && (forall k :: 0 <= k < i ==> IsSpace(s[k]))
    && (forall k :: i + |r| <= k < |s| ==> IsSpace(s[k]))
  }

  /** `str.strip()`: a trimmed slice of `s`, and everything cut away around it is whitespace. */
  function Strip(s: string): (r: string)
    ensures IsTrimmed(r)
    ensures exists i :: PaddedAt(s, r, i)
  {
    var a := SkipSpace(s, 0);
    var b := TrimEnd(s, a, |s|);
    assert PaddedAt(s, s[a..b], a);
    s[a..b]
  }

  lemma {:induction false} StripOfTrimmed(s: string)
    requires IsTrimmed(s)
    ensures Strip(s) == s
  {
  }

  predicate OccursAt(s: string, p: string, i: int) {
    0 <= i && i + |p| <= |s| && s[i..i + |p|] == p
  }

  predicate Contains(s: string, p: string) {
    exists i :: 0 <= i <= |s| - |p| && OccursAt(s, p, i)
  }

  predicate StartsWith(s: string, p: string) {
    |p| <= |s| && s[..|p|] == p
  }

  lemma {:induction false} SliceOfSlice(s: string, i: int, j: int, a: int, b: int)
    requires 0 <= i <= j <= |s| && 0 <= a <= b <= j - i
    ensures s[i..j][a..b] == s[i + a..i + b]
  {
    var x, y := s[i..j][a..b], s[i + a..i + b];
    forall m | 0 <= m < |x|
      ensures x[m] == y[m]
    {
    }
  }

  /** A pattern absent from a string is absent from each of its slices. */
  lemma {:induction false} AbsentFromSlice(s: string, p: string, i: int, j: int)
    requires 0 <= i <= j <= |s| && !Contains(s, p)
    ensures !Contains(s[i..j], p)
  {
    if Contains(s[i..j], p) {
      var u := s[i..j];
      var k :| 0 <= k <= |u| - |p| && OccursAt(u, p, k);
      SliceOfSlice(s, i, j, k, k + |p|);
      assert OccursAt(s, p, i + k);
    }
  }

  lemma {:induction false} AbsentFromStrip(s: string, p: string)
    requires !Contains(s, p)
    ensures !Contains(Strip(s), p)
  {
    var r := Strip(s);
    var i :| PaddedAt(s, r, i);
    AbsentFromSlice(s, p, i, i + |r|);
  }

  /** A slice of `s` is still a slice of `s` after stripping. */
  lemma {:induction false} StripOfSlice(s: string, j: int, k: int) returns (j': int, k': int)
    requires 0 <= j <= k <= |s|
    ensures j <= j' <= k' <= k && Strip(s[j..k]) == s[j'..k']
  {
    var u := s[j..k];
    var a := SkipSpace(u, 0);
    var b := TrimEnd(u, a, |u|);
    assert Strip(u) == u[a..b];
    SliceOfSlice(s, j, k, a, b);
    j', k' := j + a, j + b;
  }

  /** ASCII case folding, as used by a case-insensitive regex on the ASCII letters. */
  function Lower(c: char): char {
    if 'A' <= c <= 'Z' then (c as int + 32) as char else c
  }

  function Upper(c: char): char {
    if 'a' <= c <= 'z' then (c as int - 32) as char else c
  }

  /** `s.upper()` on the ASCII letters. */
  function UpperAll(s: string): (r: string)
    ensures |r| == |s| && forall i :: 0 <= i < |s| ==> r[i] == Upper(s[i])
  {
    seq(|s|, i requires 0 <= i < |s| => Upper(s[i]))
  }

  /** Equal up to ASCII case. */
  predicate EqualCI(a: string, b: string) {
    |a| == |b| && forall k :: 0 <= k < |a| ==> Lower(a[k]) == Lower(b[k])
  }

  /** `p` occurs at position `i` of `s` ignoring ASCII case. */
  predicate MatchesAtCI(s: string, p: string, i: int) {
    0 <= i && i + |p| <= |s| && EqualCI(s[i..i + |p|], p)
  }

  /** The leftmost case-insensitive occurrence of `p` at or after `from`. */
  function FindCI(s: string, p: string, from: nat): (r: Option<nat>)
    decreases |s| - from
    ensures r.Some? ==> from <= r.value && MatchesAtCI(s, p, r.value)
    ensures r.Some? ==> forall j :: from <= j < r.value ==> !MatchesAtCI(s, p, j)
    ensures r.None? ==> forall j :: from <= j ==> !MatchesAtCI(s, p, j)
  {
    if from + |p| > |s| then None
    else if MatchesAtCI(s, p, from) then Some(from)
    else FindCI(s, p, from + 1)
  }

  /** An exact occurrence of a spelling `p` of `q` is a case-insensitive occurrence of `q` at the same place. */
  lemma {:induction false} LiteralIsCI(s: string, p: string, q: string, i: int)
    requires EqualCI(p, q) && OccursAt(s, p, i)
    ensures MatchesAtCI(s, q, i)
  {
  }

  /** So the case-insensitive search finds a match whenever an exact spelling is present. */
  lemma {:induction false} LiteralFoundCI(s: string, p: string, q: string)
    requires EqualCI(p, q) && Contains(s, p)
    ensures FindCI(s, q, 0).Some?
  {
    var i :| OccursAt(s, p, i);
    LiteralIsCI(s, p, q, i);
  }

  /** A string with no case-insensitive occurrence of `q` contains no exact spelling `p` of it either. */
  lemma {:induction false} NoLiteralWithoutCI(s: string, p: string, q: string)
    requires EqualCI(p, q)
    requires forall j :: 0 <= j ==> !MatchesAtCI(s, q, j)
    ensures !Contains(s, p)
  {
    if Contains(s, p) {
      var i :| OccursAt(s, p, i);
      LiteralIsCI(s, p, q, i);
    }
  }

  /** `re.split(r'(?i)<p>\s*', s, maxsplit=1)`: whitespace after the marker is consumed with it. */
  function SplitOnceCI(s: string, p: string): (parts: seq<string>)
    ensures 1 <= |parts| <= 2
  {
    match FindCI(s, p, 0)
    case None => [s]
    case Some(i) => [s[..i], LStrip(s[i + |p|..])]
  }

  /** `re.sub(re.escape(f) + r'\n?', '', s)`: every occurrence of `f`, with one newline right after it, deleted left to right. */
  function DeleteFence(s: string, f: string): string
    requires |f| > 0
    decreases |s|
  {
    if |s| == 0 then ""
    else if StartsWith(s, f) then
      var rest := s[|f|..];
      if |rest| > 0 && rest[0] == '\n' then DeleteFence(rest[1..], f) else DeleteFence(rest, f)
    else [s[0]] + DeleteFence(s[1..], f)
  }

  /** `s.replace(p, "")`: every non-overlapping occurrence of `p` deleted left to right. */
  function RemoveAll(s: string, p: string): string
    requires |p| > 0
    decreases |s|
  {
    if |s| == 0 then ""
    else if StartsWith(s, p) then RemoveAll(s[|p|..], p)
    else [s[0]] + RemoveAll(s[1..], p)
  }

  /** The markdown code fence. */
  const Fence: string := "```"

  lemma {:induction false} FenceDeletionKeepsHead(u: string)
    requires |u| > 0 && u[0] != '`'
    ensures |DeleteFence(u, Fence)| > 0 && DeleteFence(u, Fence)[0] == u[0]
  {
  }

  /** A fence occurs at `k` exactly when three backticks start there. */
  lemma {:induction false} FenceAt(x: string, k: int)
    requires 0 <= k && k + 3 <= |x|
    ensures OccursAt(x, Fence, k) <==> (x[k] == '`' && x[k + 1] == '`' && x[k + 2] == '`')
  {
    assert x[k..k + 3] == [x[k], x[k + 1], x[k + 2]];
  }

  /** After one left-to-right deletion pass no fence is left: a kept backtick never starts a new fence. */
  lemma {:induction false} NoFenceAfterDeletion(s: string)
    ensures !Contains(DeleteFence(s, Fence), Fence)
    decreases |s|
  {
    if |s| == 0 {
    } else if StartsWith(s, Fence) {
      var rest := s[|Fence|..];
      if |rest| > 0 && rest[0] == '\n' {
        NoFenceAfterDeletion(rest[1..]);
      } else {
        NoFenceAfterDeletion(rest);
      }
    } else {
      var t := DeleteFence(s[1..], Fence);
      var x := [s[0]] + t;
      assert DeleteFence(s, Fence) == x;
      NoFenceAfterDeletion(s[1..]);
      if Contains(x, Fence) {
        var k :| 0 <= k <= |x| - |Fence| && OccursAt(x, Fence, k);
        assert |Fence| == 3;
        FenceAt(x, k);
        if k > 0 {
          FenceAt(t, k - 1);
        } else {
          var u := s[1..];
          if u[0] != '`' {
            FenceDeletionKeepsHead(u);
          } else {
            assert !(s[0] == '`' && s[1] == '`' && s[2] == '`') by {
              if |s| >= 3 { FenceAt(s, 0); }
            }
            assert t == [u[0]] + DeleteFence(u[1..], Fence);
            FenceDeletionKeepsHead(u[1..]);
          }
        }
      }
    }
  }

  /** `sep.join(parts)`. */
  function Join(sep: string, parts: seq<string>): string {
    if |parts| == 0 then ""
    else if |parts| == 1 then parts[0]
    else parts[0] + sep + Join(sep, parts[1..])
  }

  /** Joining pieces none of which is empty gives the empty text exactly when there are no pieces. */
  lemma {:induction false} JoinEmptyIffNoParts(sep: string, parts: seq<string>)
    requires forall k :: 0 <= k < |parts| ==> parts[k] != ""
    ensures Join(sep, parts) == "" <==> |parts| == 0
  {
    if |parts| > 1 {
      assert |Join(sep, parts)| >= |parts[0]| > 0;
    } else if |parts| == 1 {
      assert Join(sep, parts) == parts[0];
    }
  }

  /** Joining with a separator starting from the first piece. */
  lemma {:induction false} JoinStartsWithFirst(sep: string, parts: seq<string>)
    requires |parts| > 0
    ensures StartsWith(Join(sep, parts), parts[0])
  {
    if |parts| > 1 {
      assert Join(sep, parts)[..|parts[0]|] == parts[0];
    }
  }

  predicate IsDigit(c: char) {
    '0' <= c <= '9'
  }

  function Digit(d: nat): (c: char)
    requires d < 10
    ensures IsDigit(c) && c as int - '0' as int == d
  {
    (d + '0' as int) as char
  }

  /** `str(n)` for a non-negative integer: its decimal digits, most significant first. */
  function NatToString(n: nat): (r: string)
    ensures |r| > 0 && forall i :: 0 <= i < |r| ==> IsDigit(r[i])
    decreases n
  {
    if n < 10 then [Digit(n)] else NatToString(n / 10) + [Digit(n % 10)]
  }

  /** The value of a string of decimal digits. */
  function DecimalValue(s: string): nat
    requires forall i :: 0 <= i < |s| ==> IsDigit(s[i])
  {
    if |s| == 0 then 0
    else
      assert IsDigit(s[|s| - 1]);
      DecimalValue(s[..|s| - 1]) * 10 + (s[|s| - 1] as int - '0' as int)
  }

  /** Reading back a rendered number gives the number. */
  lemma {:induction false} DecimalRoundTrip(n: nat)
    ensures DecimalValue(NatToString(n)) == n
    decreases n
  {
    if n >= 10 {
      DecimalRoundTrip(n / 10);
      var r := NatToString(n);
      assert r[..|r| - 1] == NatToString(n / 10);
    }
  }

  /** Distinct numbers render differently. */
  lemma {:induction false} NatToStringInjective(m: nat, n: nat)
    requires NatToString(m) == NatToString(n)
    ensures m == n
  {
    DecimalRoundTrip(m);
    DecimalRoundTrip(n);
  }
}
