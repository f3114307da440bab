/**
 * `clean_sql` of the current agent: turns a language-model reply into bare
 * SQL by deleting markdown fences, then, when the reply labels its SQL with
 * a literal "SQL:" or "sql:", keeping only the text after the first such
 * label (any letter case) and cutting off a trailing "Explanation:" section.
 */
module SqlCleaning {
  import opened Wrappers
  import opened Strings

  const SqlFence: string := "```sql"
  const SqlLabel: string := "sql:"
  const ExplanationLabel: string := "explanation:"

  /** The reply after both fence substitutions and `strip()`: trimmed and fence-free. */
  function Unfenced(raw: string): (t: string)
    ensures IsTrimmed(t) && !Contains(t, Fence)
  {
    var d := DeleteFence(DeleteFence(raw, SqlFence), Fence);
    NoFenceAfterDeletion(DeleteFence(raw, SqlFence));
    AbsentFromStrip(d, Fence);
    Strip(d)
  }

  /** The case-sensitive test that decides whether the label is looked for at all. */
  predicate HasSqlLabel(t: string) {
    Contains(t, "SQL:") || Contains(t, "sql:")
  }

  predicate HasExplanationLabel(t: string) {
    Contains(t, "Explanation:") || Contains(t, "explanation:")
  }

  /** Everything before the first case-insensitive match holds no match of its own. */
  lemma {:induction false} NoMatchBeforeFirst(u: string, q: string, j: nat)
    requires |q| > 0 && FindCI(u, q, 0) == Some(j)
    ensures forall m :: 0 <= m ==> !MatchesAtCI(u[..j], q, m)
  {
    forall m | 0 <= m && m + |q| <= j
      ensures MatchesAtCI(u[..j], q, m) == MatchesAtCI(u, q, m)
    {
      SliceOfSlice(u, 0, j, m, m + |q|);
    }
  }

  /** A match in the suffix `t[lo..]` is a match in `t`, shifted by `lo`. */
  lemma {:induction false} MatchShift(t: string, q: string, lo: int, m: int)
    requires 0 <= lo <= |t| && 0 <= m
    ensures MatchesAtCI(t[lo..], q, m) <==> MatchesAtCI(t, q, lo + m)
  {
    if m + |q| <= |t| - lo {
      assert t[lo..][m..m + |q|] == t[lo + m..lo + m + |q|];
    }
  }

  /** The first match in the suffix `t[lo..]` is the first match in `t` at or after `lo`. */
  lemma {:induction false} FindShift(t: string, q: string, lo: int, j: nat)
    requires 0 <= lo <= |t| && FindCI(t[lo..], q, 0) == Some(j)
    ensures FindCI(t, q, lo) == Some(lo + j)
  {
    MatchShift(t, q, lo, j);
    var r := FindCI(t, q, lo);
    assert r.Some? && r.value <= lo + j;
    FirstMatchInSuffix(t, q, lo, j, r.value - lo);
  }

  /** No match of `t[lo..]` comes before its first one, so neither does a match of `t` after `lo`. */
  lemma {:induction false} FirstMatchInSuffix(t: string, q: string, lo: int, j: nat, m: int)
    requires 0 <= lo <= |t| && FindCI(t[lo..], q, 0) == Some(j)
    requires 0 <= m && MatchesAtCI(t, q, lo + m)
    ensures j <= m
  {
    MatchShift(t, q, lo, m);
  }

  /** Both spellings the agent tests for match the lower-case label in any case. */
  lemma {:induction false} ExplanationSpellings()
    ensures EqualCI("Explanation:", ExplanationLabel) && EqualCI("explanation:", ExplanationLabel)
  {
  }

  /** A literal explanation label is found by the case-insensitive search. */
  lemma {:induction false} ExplanationFound(u: string)
    requires HasExplanationLabel(u)
    ensures FindCI(u, ExplanationLabel, 0).Some?
  {
    ExplanationSpellings();
    if Contains(u, "Explanation:") {
      LiteralFoundCI(u, "Explanation:", ExplanationLabel);
    } else {
      LiteralFoundCI(u, "explanation:", ExplanationLabel);
    }
  }

  /** Cutting before the first explanation label leaves a prefix without any explanation label. */
  lemma {:induction false} CutBeforeExplanation(u: string, cut: string) returns (j: nat)
    requires HasExplanationLabel(u) && cut == SplitOnceCI(u, ExplanationLabel)[0]
    ensures j <= |u| && cut == u[..j] && !HasExplanationLabel(cut)
    ensures FindCI(u, ExplanationLabel, 0) == Some(j)
  {
    ExplanationFound(u);
    j := FindCI(u, ExplanationLabel, 0).value;
    assert cut == u[..j];
    NoMatchBeforeFirst(u, ExplanationLabel, j);
    ExplanationSpellings();
    NoLiteralWithoutCI(u[..j], "Explanation:", ExplanationLabel);
    NoLiteralWithoutCI(u[..j], "explanation:", ExplanationLabel);
  }

  /** Stripping a fence-free slice of `t` that has no explanation label keeps both facts. */
  lemma {:induction false} StrippedSlice(t: string, lo: int, hi: int)
    requires 0 <= lo <= hi <= |t| && !Contains(t, Fence) && !HasExplanationLabel(t[lo..hi])
    ensures !HasExplanationLabel(Strip(t[lo..hi])) && !Contains(Strip(t[lo..hi]), Fence)
  {
    var a, b := StripOfSlice(t, lo, hi);
    AbsentFromStrip(t[lo..hi], "Explanation:");
    AbsentFromStrip(t[lo..hi], "explanation:");
    AbsentFromSlice(t, Fence, a, b);
  }

  lemma {:induction false} PrefixOfSuffix(t: string, lo: int, j: int)
    requires 0 <= lo && 0 <= j && lo + j <= |t|
    ensures t[lo..][..j] == t[lo..lo + j]
  {
  }

  /** A literal "SQL:" or "sql:" is found by the case-insensitive search. */
  lemma {:induction false} LabelFound(t: string)
    requires HasSqlLabel(t)
    ensures FindCI(t, SqlLabel, 0).Some?
  {
    if Contains(t, "SQL:") {
      LiteralFoundCI(t, "SQL:", SqlLabel);
    } else {
      LiteralFoundCI(t, "sql:", SqlLabel);
    }
  }

  /** The part after the label is the suffix of `t` from the first non-blank after the first label on. */
  lemma {:induction false} AfterLabel(t: string, u: string) returns (lo: int)
    requires FindCI(t, SqlLabel, 0).Some? && u == SplitOnceCI(t, SqlLabel)[1]
    ensures lo == |t| - |u| && FindCI(t, SqlLabel, 0).value + |SqlLabel| <= lo && u == t[lo..]
    ensures forall k :: FindCI(t, SqlLabel, 0).value + |SqlLabel| <= k < lo ==> IsSpace(t[k])
    ensures lo == |t| || !IsSpace(t[lo])
  {
    var a := FindCI(t, SqlLabel, 0).value + |SqlLabel|;
    var s := t[a..];
    assert u == LStrip(s);
    lo := |t| - |u|;
    SuffixOfSuffix(t, a, |s| - |u|);
    assert forall k :: a <= k < lo ==> t[k] == s[k - a];
    if lo < |t| {
      assert t[lo] == u[0];
    }
  }

  lemma {:induction false} SuffixOfSuffix(t: string, a: int, m: int)
    requires 0 <= a <= |t| && 0 <= m <= |t| - a
    ensures t[a..][m..] == t[a + m..]
  {
  }

  /** What follows the first "SQL:" in any letter case, blanks after the label dropped. */
  function SqlPart(t: string): string {
    var parts := SplitOnceCI(t, SqlLabel);
    if |parts| > 1 then parts[1] else t
  }

  /** The part before the first "Explanation:" in any letter case, cut only when a literal spelling occurs. */
  function BeforeExplanation(u: string): string {
    if HasExplanationLabel(u) then SplitOnceCI(u, ExplanationLabel)[0] else u
  }

  /**
   * Which slice of the unfenced text a labelled reply keeps: it starts at
   * the first non-blank after the first case-insensitive "SQL:" and ends
   * at the first case-insensitive "Explanation:" from there on when a
   * literal spelling occurs there, otherwise at the end.
   */
  lemma {:induction false} LabelledPart(t: string) returns (lo: int, hi: int)
    requires HasSqlLabel(t)
    ensures FindCI(t, SqlLabel, 0).Some?
    ensures FindCI(t, SqlLabel, 0).value + |SqlLabel| <= lo <= hi <= |t|
    ensures forall k :: FindCI(t, SqlLabel, 0).value + |SqlLabel| <= k < lo ==> IsSpace(t[k])
    ensures lo == |t| || !IsSpace(t[lo])
    ensures HasExplanationLabel(t[lo..]) ==> FindCI(t, ExplanationLabel, lo) == Some(hi)
    ensures !HasExplanationLabel(t[lo..]) ==> hi == |t|
    ensures BeforeExplanation(SqlPart(t)) == t[lo..hi] && !HasExplanationLabel(t[lo..hi])
  {
    LabelFound(t);
    var u := SqlPart(t);
    lo := AfterLabel(t, u);
    if HasExplanationLabel(u) {
      hi := ExplanationCut(t, lo, u);
    } else {
      hi := |t|;
      assert t[lo..hi] == u;
    }
  }

  /** The explanation cut, as a position in `t` rather than in its suffix `u`. */
  lemma {:induction false} ExplanationCut(t: string, lo: int, u: string) returns (hi: int)
    requires 0 <= lo <= |t| && u == t[lo..] && HasExplanationLabel(u)
    ensures lo <= hi <= |t| && FindCI(t, ExplanationLabel, lo) == Some(hi)
    ensures BeforeExplanation(u) == t[lo..hi] && !HasExplanationLabel(t[lo..hi])
  {
    var j := CutBeforeExplanation(u, BeforeExplanation(u));
    PrefixOfSuffix(t, lo, j);
    FindShift(t, ExplanationLabel, lo, j);
    hi := lo + j;
  }

  /** The stripped labelled part keeps the unfenced text's lack of fences and has no explanation label. */
  lemma {:induction false} LabelledClean(t: string)
    requires HasSqlLabel(t) && !Contains(t, Fence)
    ensures !Contains(Strip(BeforeExplanation(SqlPart(t))), Fence)
    ensures !HasExplanationLabel(Strip(BeforeExplanation(SqlPart(t))))
  {
    var lo, hi := LabelledPart(t);
    StrippedSlice(t, lo, hi);
  }

  /**
   * What `clean_sql` returns: "" for an empty reply; otherwise trimmed
   * text without fences, which is the whole unfenced reply unless that
   * holds a literal "SQL:" or "sql:"; in that case it is the labelled
   * part, without any explanation label.
   */
  function Cleaned(raw: string): (sql: string)
    ensures raw == "" ==> sql == ""
    ensures IsTrimmed(sql) && !Contains(sql, Fence)
    ensures !HasSqlLabel(Unfenced(raw)) ==> sql == Unfenced(raw)
    ensures HasSqlLabel(Unfenced(raw)) ==> !HasExplanationLabel(sql)
  {
    if raw == "" then ""
    else
      var t := Unfenced(raw);
      if HasSqlLabel(t) then
        LabelledClean(t);
        Strip(BeforeExplanation(SqlPart(t)))
      else t
  }

  /** A labelled reply is cleaned to exactly the stripped slice `LabelledPart` describes. */
  lemma {:induction false} CleanedLabelledSlice(raw: string) returns (lo: int, hi: int)
    requires HasSqlLabel(Unfenced(raw))
    ensures var t := Unfenced(raw);
            FindCI(t, SqlLabel, 0).Some?
            && FindCI(t, SqlLabel, 0).value + |SqlLabel| <= lo <= hi <= |t|
            && (forall k :: FindCI(t, SqlLabel, 0).value + |SqlLabel| <= k < lo ==> IsSpace(t[k]))
            && (lo == |t| || !IsSpace(t[lo]))
            && (HasExplanationLabel(t[lo..]) ==> FindCI(t, ExplanationLabel, lo) == Some(hi))
            && (!HasExplanationLabel(t[lo..]) ==> hi == |t|)
            && Cleaned(raw) == Strip(t[lo..hi])
  {
    assert raw != "";
    lo, hi := LabelledPart(Unfenced(raw));
  }

  /** `clean_sql`: the fences are deleted, the label and explanation handled step by step, and the text stripped. */
  method CleanSql(raw: string) returns (sql: string)
    ensures sql == Cleaned(raw)
    ensures HasSqlLabel(Unfenced(raw)) ==> sql == Strip(BeforeExplanation(SqlPart(Unfenced(raw))))
  {
    if raw == "" {
      return "";
    }
    sql := DeleteFence(raw, SqlFence);
    sql := DeleteFence(sql, Fence);
    sql := Strip(sql);
    ghost var t := sql;
    assert t == Unfenced(raw);
    if Contains(sql, "SQL:") || Contains(sql, "sql:") {
      LabelFound(sql);
      var parts := SplitOnceCI(sql, SqlLabel);
      if |parts| > 1 {
        sql := parts[1];
        assert sql == SqlPart(t);
        if Contains(sql, "Explanation:") || Contains(sql, "explanation:") {
          sql := SplitOnceCI(sql, ExplanationLabel)[0];
        }
        assert sql == BeforeExplanation(SqlPart(t));
      }
    } else {
      StripOfTrimmed(sql);
    }
    sql := Strip(sql);
  }
}
