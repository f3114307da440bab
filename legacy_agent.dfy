/**
 * The earlier text-to-SQL agent: generate, execute, then repair on an
 * execution error or on duplicate parcel ids, or have the model judge a
 * suspicious row count (zero rows, or more rows than there are parcels);
 * every node that produces or judges SQL counts one more attempt.
 */
module LegacyAgent {
  import opened Wrappers
  import opened Indices
  import opened Strings
  import opened PyValues
  import opened SqlCleaning
  import opened DbUtils

  const MaxAttempts: int := 3

  datatype LegacyState = LegacyState(
    question: string,
    schema: string,
    sql: Option<string>,
    previousSql: Option<string>,
    error: Option<string>,
    result: Option<seq<Row>>,
    attempt: int,
    validatedEmptyOk: Option<bool>,
    parcelCount: Option<int>)

  /** The truthy `parcel_id`s of the rows, in row order. */
  function ParcelIds(rows: seq<Row>): (ids: seq<Value>)
    ensures |ids| <= |rows|
    ensures forall k :: 0 <= k < |ids| ==> Truthy(ids[k])
    ensures forall k :: 0 <= k < |rows| && Truthy(Get(rows[k], "parcel_id")) ==> Get(rows[k], "parcel_id") in ids
  {
    if |rows| == 0 then []
    else
      var n := |rows|;
      var id := Get(rows[n - 1], "parcel_id");
      var before := ParcelIds(rows[..n - 1]);
      assert forall k :: 0 <= k < n - 1 ==> rows[k] == rows[..n - 1][k];
      before + (if Truthy(id) then [id] else [])
  }

  /**
   * `idx` lists, in increasing order, the rows whose ids make up `ids`;
   * `inv` finds every row with a truthy id in that list.
   */
  ghost predicate IdOrigin(rows: seq<Row>, ids: seq<Value>, idx: seq<nat>, inv: seq<nat>) {
    |idx| == |ids| && |inv| == |rows|
    && (forall a, b :: 0 <= a < b < |idx| ==> idx[a] < idx[b])
    && (forall a {:trigger idx[a]} :: 0 <= a < |idx| ==> idx[a] < |rows| && ids[a] == Get(rows[idx[a]], "parcel_id"))
    && (forall k :: 0 <= k < |rows| && Truthy(Get(rows[k], "parcel_id")) ==> inv[k] < |idx| && idx[inv[k]] == k)
  }

  /** The ids are those of the rows with a truthy id, each once and in row order. */
  lemma {:induction false} ParcelIdsOrigin(rows: seq<Row>) returns (idx: seq<nat>, inv: seq<nat>)
    ensures IdOrigin(rows, ParcelIds(rows), idx, inv)
    decreases |rows|
  {
    if |rows| == 0 {
      idx, inv := [], [];
    } else {
      var n := |rows|;
      var before, binv := ParcelIdsOrigin(rows[..n - 1]);
      if Truthy(Get(rows[n - 1], "parcel_id")) {
        idx, inv := IdOriginKeep(rows, before, binv);
      } else {
        idx, inv := IdOriginDrop(rows, before, binv);
      }
    }
  }

  lemma {:induction false} IdOriginKeep(rows: seq<Row>, before: seq<nat>, binv: seq<nat>) returns (idx: seq<nat>, inv: seq<nat>)
    requires |rows| > 0 && Truthy(Get(rows[|rows| - 1], "parcel_id"))
    requires IdOrigin(rows[..|rows| - 1], ParcelIds(rows[..|rows| - 1]), before, binv)
    ensures IdOrigin(rows, ParcelIds(rows), idx, inv)
  {
    idx := before + [|rows| - 1];
    inv := binv + [|before|];
    KeepSound(rows, before, binv);
    KeepComplete(rows, before, binv);
  }

  /** Appending the last row keeps the listed rows and their ids in order. */
  lemma {:induction false} KeepSound(rows: seq<Row>, before: seq<nat>, binv: seq<nat>)
    requires |rows| > 0 && Truthy(Get(rows[|rows| - 1], "parcel_id"))
    requires IdOrigin(rows[..|rows| - 1], ParcelIds(rows[..|rows| - 1]), before, binv)
    ensures var idx := before + [|rows| - 1];
            |idx| == |ParcelIds(rows)|
            && (forall a, b :: 0 <= a < b < |idx| ==> idx[a] < idx[b])
            && forall a {:trigger idx[a]} :: 0 <= a < |idx| ==>
                 idx[a] < |rows| && ParcelIds(rows)[a] == Get(rows[idx[a]], "parcel_id")
  {
    var n := |rows|;
    var front := rows[..n - 1];
    var idx := before + [n - 1];
    var last := Get(rows[n - 1], "parcel_id");
    forall a | 0 <= a < |idx|
      ensures idx[a] < |rows| && ParcelIds(rows)[a] == Get(rows[idx[a]], "parcel_id")
    {
      if a < |before| {
        AppendIndexFront(ParcelIds(front), [last], a);
        assert front[before[a]] == rows[idx[a]];
      } else {
        AppendIndex(ParcelIds(front), [last], 0);
      }
    }
  }

  /** Appending the last row still finds every row with a truthy id. */
  lemma {:induction false} KeepComplete(rows: seq<Row>, before: seq<nat>, binv: seq<nat>)
    requires |rows| > 0 && Truthy(Get(rows[|rows| - 1], "parcel_id"))
    requires IdOrigin(rows[..|rows| - 1], ParcelIds(rows[..|rows| - 1]), before, binv)
    ensures var idx := before + [|rows| - 1];
            var inv := binv + [|before|];
            |inv| == |rows|
            && forall k :: 0 <= k < |rows| && Truthy(Get(rows[k], "parcel_id")) ==> inv[k] < |idx| && idx[inv[k]] == k
  {
    var n := |rows|;
    var front := rows[..n - 1];
    var idx := before + [n - 1];
    var inv := binv + [|before|];
    forall k | 0 <= k < |rows| && Truthy(Get(rows[k], "parcel_id"))
      ensures inv[k] < |idx| && idx[inv[k]] == k
    {
      if k < n - 1 {
        assert front[k] == rows[k];
        AppendIndexFront(binv, [|before|], k);
        AppendIndexFront(before, [n - 1], binv[k]);
      }
    }
  }

  lemma {:induction false} IdOriginDrop(rows: seq<Row>, before: seq<nat>, binv: seq<nat>) returns (idx: seq<nat>, inv: seq<nat>)
    requires |rows| > 0 && !Truthy(Get(rows[|rows| - 1], "parcel_id"))
    requires IdOrigin(rows[..|rows| - 1], ParcelIds(rows[..|rows| - 1]), before, binv)
    ensures IdOrigin(rows, ParcelIds(rows), idx, inv)
  {
    idx := before;
    inv := binv + [0];
    DropSound(rows, before, binv);
    DropComplete(rows, before, binv);
  }

  /** Skipping the last row keeps the listed rows and their ids. */
  lemma {:induction false} DropSound(rows: seq<Row>, before: seq<nat>, binv: seq<nat>)
    requires |rows| > 0 && !Truthy(Get(rows[|rows| - 1], "parcel_id"))
    requires IdOrigin(rows[..|rows| - 1], ParcelIds(rows[..|rows| - 1]), before, binv)
    ensures |before| == |ParcelIds(rows)|
    ensures forall a {:trigger before[a]} :: 0 <= a < |before| ==>
              before[a] < |rows| && ParcelIds(rows)[a] == Get(rows[before[a]], "parcel_id")
  {
    var front := rows[..|rows| - 1];
    forall a | 0 <= a < |before|
      ensures before[a] < |rows| && ParcelIds(rows)[a] == Get(rows[before[a]], "parcel_id")
    {
      AppendIndexFront(ParcelIds(front), [], a);
      assert front[before[a]] == rows[before[a]];
    }
  }

  /** Skipping the last row, whose id is falsy, still finds every row with a truthy id. */
  lemma {:induction false} DropComplete(rows: seq<Row>, before: seq<nat>, binv: seq<nat>)
    requires |rows| > 0 && !Truthy(Get(rows[|rows| - 1], "parcel_id"))
    requires IdOrigin(rows[..|rows| - 1], ParcelIds(rows[..|rows| - 1]), before, binv)
    ensures var inv := binv + [0];
            |inv| == |rows|
            && forall k :: 0 <= k < |rows| && Truthy(Get(rows[k], "parcel_id")) ==> inv[k] < |before| && before[inv[k]] == k
  {
    var front := rows[..|rows| - 1];
    var inv := binv + [0];
    forall k | 0 <= k < |rows| && Truthy(Get(rows[k], "parcel_id"))
      ensures inv[k] < |before| && before[inv[k]] == k
    {
      assert front[k] == rows[k];
      AppendIndexFront(binv, [0], k);
    }
  }

  /** Two equal ids in the list are exactly two rows, in order, that carry the same truthy id. */
  lemma {:induction false} RepeatedIdInRows(rows: seq<Row>)
    ensures (exists i, j :: 0 <= i < j < |ParcelIds(rows)| && ParcelIds(rows)[i] == ParcelIds(rows)[j]) <==>
            (exists i, j :: 0 <= i < j < |rows| && Truthy(Get(rows[i], "parcel_id"))
                            && Get(rows[i], "parcel_id") == Get(rows[j], "parcel_id"))
  {
    var idx, inv := ParcelIdsOrigin(rows);
    if exists a, b :: 0 <= a < b < |ParcelIds(rows)| && ParcelIds(rows)[a] == ParcelIds(rows)[b] {
      var a, b :| 0 <= a < b < |ParcelIds(rows)| && ParcelIds(rows)[a] == ParcelIds(rows)[b];
      RepeatInIds(rows, idx, inv, a, b);
    }
    if exists i, j :: 0 <= i < j < |rows| && Truthy(Get(rows[i], "parcel_id"))
                      && Get(rows[i], "parcel_id") == Get(rows[j], "parcel_id") {
      var i, j :| 0 <= i < j < |rows| && Truthy(Get(rows[i], "parcel_id"))
                  && Get(rows[i], "parcel_id") == Get(rows[j], "parcel_id");
      RepeatInRows(rows, idx, inv, i, j);
    }
  }

  lemma {:induction false} RepeatInIds(rows: seq<Row>, idx: seq<nat>, inv: seq<nat>, a: int, b: int)
    requires IdOrigin(rows, ParcelIds(rows), idx, inv)
    requires 0 <= a < b < |ParcelIds(rows)| && ParcelIds(rows)[a] == ParcelIds(rows)[b]
    ensures 0 <= idx[a] < idx[b] < |rows| && Truthy(Get(rows[idx[a]], "parcel_id"))
            && Get(rows[idx[a]], "parcel_id") == Get(rows[idx[b]], "parcel_id")
  {
    assert Truthy(ParcelIds(rows)[a]);
  }

  lemma {:induction false} RepeatInRows(rows: seq<Row>, idx: seq<nat>, inv: seq<nat>, i: int, j: int)
    requires IdOrigin(rows, ParcelIds(rows), idx, inv)
    requires 0 <= i < j < |rows| && Truthy(Get(rows[i], "parcel_id"))
    requires Get(rows[i], "parcel_id") == Get(rows[j], "parcel_id")
    ensures 0 <= inv[i] < inv[j] < |ParcelIds(rows)| && ParcelIds(rows)[inv[i]] == ParcelIds(rows)[inv[j]]
  {
    assert idx[inv[i]] == i && idx[inv[j]] == j;
  }

  function IdSet(ids: seq<Value>): set<Value> {
    set x | x in ids
  }

  predicate Distinct(ids: seq<Value>) {
    forall i, j :: 0 <= i < j < |ids| ==> ids[i] != ids[j]
  }

  lemma {:induction false} IdSetExtend(p: seq<Value>, x: Value)
    ensures IdSet(p + [x]) == IdSet(p) + {x}
  {
    assert forall y :: y in p + [x] <==> y in p || y == x;
  }

  lemma {:induction false} RepeatNotDistinct(p: seq<Value>, x: Value)
    requires x in p
    ensures !Distinct(p + [x])
  {
    var i :| 0 <= i < |p| && p[i] == x;
    assert (p + [x])[i] == (p + [x])[|p|];
  }

  lemma {:induction false} DistinctExtend(p: seq<Value>, x: Value)
    requires x !in p
    ensures Distinct(p + [x]) <==> Distinct(p)
  {
    var ids := p + [x];
    if Distinct(p) {
      forall i, j | 0 <= i < j < |ids|
        ensures ids[i] != ids[j]
      {
        assert ids[i] == p[i];
        if j < |p| {
          assert ids[j] == p[j];
        }
      }
    }
    if Distinct(ids) {
      forall i, j | 0 <= i < j < |p|
        ensures p[i] != p[j]
      {
        assert ids[i] == p[i] && ids[j] == p[j];
      }
    }
  }

  /** The set of the ids is as large as the list exactly when no id repeats. */
  lemma {:induction false} SetSizeIffDistinct(ids: seq<Value>)
    ensures |IdSet(ids)| <= |ids|
    ensures |IdSet(ids)| == |ids| <==> Distinct(ids)
  {
    if |ids| > 0 {
      var p := ids[..|ids| - 1];
      var x := ids[|ids| - 1];
      SetSizeIffDistinct(p);
      assert ids == p + [x];
      IdSetExtend(p, x);
      if x in p {
        RepeatNotDistinct(p, x);
        assert IdSet(ids) == IdSet(p);
      } else {
        DistinctExtend(p, x);
        assert |IdSet(ids)| == |IdSet(p)| + 1;
      }
    }
  }

  /** Duplicate detection: more than one row, some truthy ids, and fewer distinct ids than ids. */
  predicate HasDuplicateIds(rows: seq<Row>) {
    |rows| > 1 && |ParcelIds(rows)| > 0 && |ParcelIds(rows)| != |IdSet(ParcelIds(rows))|
  }

  /** Rows have duplicates exactly when there are several of them and some truthy id occurs twice. */
  lemma {:induction false} DuplicatesIffRepeatedId(rows: seq<Row>)
    ensures HasDuplicateIds(rows) <==>
              |rows| > 1 && exists i, j :: 0 <= i < j < |ParcelIds(rows)| && ParcelIds(rows)[i] == ParcelIds(rows)[j]
    ensures HasDuplicateIds(rows) <==>
              |rows| > 1 && exists i, j :: 0 <= i < j < |rows| && Truthy(Get(rows[i], "parcel_id"))
                                         && Get(rows[i], "parcel_id") == Get(rows[j], "parcel_id")
  {
    RepeatedIdInRows(rows);
    var ids := ParcelIds(rows);
    SetSizeIffDistinct(ids);
    if !Distinct(ids) {
      var i, j :| 0 <= i < j < |ids| && ids[i] == ids[j];
      assert |ids| > 0;
    }
  }

  /** The ids that occur more than once. */
  function RepeatedIds(ids: seq<Value>): set<Value> {
    set x | x in ids && multiset(ids)[x] > 1
  }

  /** The diagnosis handed to the duplicate-repair prompt. */
  function DuplicateInfo(ids: seq<Value>): string {
    "The query returned " + NatToString(|ids|) + " rows with only " + NatToString(|IdSet(ids)|)
    + " unique parcels. Found " + NatToString(|RepeatedIds(ids)|) + " duplicate parcel_id(s)."
  }

  /** What `validate_results` finds suspicious about a row count. */
  datatype Issue = ZeroRows | TooManyRows | NoIssue

  /** The issue classification: zero rows first, then more rows than a known, non-zero parcel count. */
  function ClassifyIssue(count: nat, parcelCount: Option<int>): (i: Issue)
    ensures i == ZeroRows <==> count == 0
    ensures i == TooManyRows <==> count > 0 && parcelCount.Some? && parcelCount.value != 0 && count > parcelCount.value
  {
    if count == 0 then ZeroRows
    else if parcelCount.Some? && parcelCount.value != 0 && count > parcelCount.value then TooManyRows
    else NoIssue
  }

  /** The router's test for a suspicious row count. */
  predicate NeedsValidation(count: nat, parcelCount: Option<int>) {
    count == 0 || (parcelCount.Some? && parcelCount.value != 0 && count > parcelCount.value)
  }

  /** The router sends to validation exactly the counts the validator classifies as an issue. */
  lemma {:induction false} NeedsValidationIffIssue(count: nat, parcelCount: Option<int>)
    ensures NeedsValidation(count, parcelCount) <==> ClassifyIssue(count, parcelCount) != NoIssue
  {
  }

  /** The parsed verdict of the validation model. */
  datatype Verdict = Accept | Replace(sql: string)

  /** The FIX: reply's SQL: every "FIX:" removed, stripped, then both fences deleted and stripped again. */
  function FixSql(reply: string): (r: string)
    ensures IsTrimmed(r) && !Contains(r, Fence)
  {
    Unfenced(Strip(RemoveAll(Strip(reply), "FIX:")))
  }

  predicate LooksLikeSql(reply: string) {
    Contains(UpperAll(reply), "SELECT") || Contains(UpperAll(reply), "FROM")
  }

  /**
   * The verdict a validation reply stands for: VALID: accepts, FIX:
   * replaces with the SQL after it, SQL-looking text replaces with
   * itself, anything else accepts; a replacement is trimmed and fence-free.
   */
  function VerdictOf(response: string): (v: Verdict)
    ensures v.Accept? <==>
              StartsWith(Strip(response), "VALID:")
              || (!StartsWith(Strip(response), "FIX:") && !LooksLikeSql(response))
    ensures v.Replace? ==> IsTrimmed(v.sql) && !Contains(v.sql, Fence)
  {
    if StartsWith(Strip(response), "VALID:") then Accept
    else if StartsWith(Strip(response), "FIX:") then Replace(FixSql(response))
    else if LooksLikeSql(response) then Replace(Unfenced(Strip(response)))
    else Accept
  }

  /** Parses the validation model's reply step by step, as `validate_results` does. */
  method ParseVerdict(response: string) returns (v: Verdict)
    ensures v == VerdictOf(response)
    ensures v.Accept? <==>
              StartsWith(Strip(response), "VALID:")
              || (!StartsWith(Strip(response), "FIX:") && !LooksLikeSql(response))
    ensures v.Replace? ==> IsTrimmed(v.sql) && !Contains(v.sql, Fence)
    ensures !StartsWith(Strip(response), "VALID:") && StartsWith(Strip(response), "FIX:") ==>
              v == Replace(FixSql(response))
    ensures !StartsWith(Strip(response), "VALID:") && !StartsWith(Strip(response), "FIX:") && LooksLikeSql(response) ==>
              v == Replace(Unfenced(Strip(response)))
  {
    if StartsWith(Strip(response), "VALID:") {
      return Accept;
    } else if StartsWith(Strip(response), "FIX:") {
      var newSql := RemoveAll(Strip(response), "FIX:");
      newSql := Strip(newSql);
      newSql := DeleteFence(newSql, SqlFence);
      newSql := DeleteFence(newSql, Fence);
      newSql := Strip(newSql);
      assert newSql == FixSql(response);
      return Replace(newSql);
    } else {
      if Contains(UpperAll(response), "SELECT") || Contains(UpperAll(response), "FROM") {
        var newSql := Strip(response);
        newSql := DeleteFence(newSql, SqlFence);
        newSql := DeleteFence(newSql, Fence);
        newSql := Strip(newSql);
        assert newSql == Unfenced(Strip(response));
        return Replace(newSql);
      } else {
        return Accept;
      }
    }
  }

  /** The validation prompt `validate_results` fills in for the rows the router checked. */
  function ValidationPromptFor(s: LegacyState, tables: string): ValidationPrompt
    requires s.result.Some?
  {
    var count := |s.result.value|;
    ValidationPrompt(tables, s.question, s.sql, ClassifyIssue(count, s.parcelCount), count, s.parcelCount)
  }

  /** The two repair prompts: one for duplicate ids, one for an execution error. */
  datatype RepairPrompt =
    | DuplicatePrompt(tables: string, question: string, duplicateInfo: string, sql: Option<string>)
    | ErrorPrompt(tables: string, question: string, error: Option<string>, sql: Option<string>)

  /** The validation prompt's inputs: the issue and the parcel count it mentions. */
  datatype ValidationPrompt = ValidationPrompt(tables: string, question: string, sql: Option<string>, issue: Issue, count: nat, parcelCount: Option<int>)

  /** The repair prompt `repair_sql` builds: the duplicate prompt only when there is no error and the rows repeat an id. */
  function RepairPromptFor(s: LegacyState, tables: string): (p: RepairPrompt)
    ensures p.DuplicatePrompt? <==> !TruthyText(s.error) && s.result.Some? && HasDuplicateIds(s.result.value)
    ensures p.DuplicatePrompt? ==> p.duplicateInfo == DuplicateInfo(ParcelIds(s.result.value))
    ensures p.ErrorPrompt? ==> p.error == s.error
    ensures p.sql == s.sql && p.tables == tables && p.question == s.question
  {
    if !TruthyText(s.error) && s.result.Some? && |s.result.value| > 0 && HasDuplicateIds(s.result.value) then
      DuplicatePrompt(tables, s.question, DuplicateInfo(ParcelIds(s.result.value)), s.sql)
    else
      ErrorPrompt(tables, s.question, s.error, s.sql)
  }

  datatype LegacyNode = GenerateSql | ExecuteSql | RepairSql | ValidateResults | End

  /** `route_after_execute`: error first, then duplicates, then a suspicious count not yet accepted; each only while attempts remain. */
  function RouteAfterExecute(s: LegacyState): (n: LegacyNode)
    ensures TruthyText(s.error) ==> (n == RepairSql <==> s.attempt < MaxAttempts) && (n != RepairSql ==> n == End)
    ensures n == RepairSql <==>
              s.attempt < MaxAttempts
              && (TruthyText(s.error) || (s.result.Some? && HasDuplicateIds(s.result.value)))
    ensures n == ValidateResults <==>
              s.attempt < MaxAttempts && !TruthyText(s.error) && s.result.Some?
              && !HasDuplicateIds(s.result.value)
              && NeedsValidation(|s.result.value|, s.parcelCount) && s.validatedEmptyOk != Some(true)
    ensures n == RepairSql || n == ValidateResults || n == End
  {
    if TruthyText(s.error) && s.attempt < MaxAttempts then RepairSql
    else if !TruthyText(s.error) && s.result.Some? then
      var results := s.result.value;
      if HasDuplicateIds(results) && s.attempt < MaxAttempts then RepairSql
      else if NeedsValidation(|results|, s.parcelCount) && s.validatedEmptyOk != Some(true) && s.attempt < MaxAttempts then ValidateResults
      else End
    else End
  }

  /** `route_after_validate`: an accepted count ends the run, a replaced query is executed. */
  function RouteAfterValidate(s: LegacyState): (n: LegacyNode)
    ensures n == End <==> s.validatedEmptyOk == Some(true)
    ensures n != End ==> n == ExecuteSql
  {
    if s.validatedEmptyOk == Some(true) then End else ExecuteSql
  }

  function Rank(n: LegacyNode): nat {
    match n
    case GenerateSql => 3
    case ExecuteSql => 2
    case RepairSql => 1
    case ValidateResults => 1
    case End => 0
  }

  function Max(a: int, b: int): int {
    if a < b then b else a
  }

  /** The model and the database the legacy graph talks to; `tables` is the freshly rendered schema text. */
  datatype LegacyCollaborators = LegacyCollaborators(
    tables: string,
    writeSql: (string, string, Option<string>) -> string,
    repairSql: RepairPrompt -> string,
    validate: ValidationPrompt -> string,
    database: Option<string> -> DbOutcome)

  /** The compiled legacy graph running one question. */
  class LegacyGraph {
    var state: LegacyState
    var node: LegacyNode
    ghost var executions: nat

    constructor (initial: LegacyState)
      ensures state == initial && node == GenerateSql && executions == 0
    {
      state := initial;
      node := GenerateSql;
      executions := 0;
    }

    /** `validate_results`: needs the rows the router checked. */
    method Validate(c: LegacyCollaborators)
      requires state.result.Some?
      modifies this
      ensures node == old(node) && executions == old(executions)
      ensures state.attempt == old(state).attempt + 1
      ensures ClassifyIssue(|old(state).result.value|, old(state).parcelCount) == NoIssue ==>
                state == old(state).(validatedEmptyOk := Some(true), attempt := old(state).attempt + 1)
      ensures state.validatedEmptyOk == Some(true) ==>
                state == old(state).(validatedEmptyOk := Some(true), attempt := old(state).attempt + 1)
      ensures state.validatedEmptyOk != Some(true) ==>
                state.validatedEmptyOk == Some(false) && state.sql.Some?
                && IsTrimmed(state.sql.value) && !Contains(state.sql.value, Fence)
                && state == old(state).(sql := state.sql, validatedEmptyOk := Some(false), attempt := old(state).attempt + 1)
      ensures ClassifyIssue(|old(state).result.value|, old(state).parcelCount) != NoIssue ==>
                var v := VerdictOf(c.validate(ValidationPromptFor(old(state), c.tables)));
                (v.Accept? ==> state == old(state).(validatedEmptyOk := Some(true), attempt := old(state).attempt + 1))
                && (v.Replace? ==>
                      state == old(state).(sql := Some(v.sql), validatedEmptyOk := Some(false), attempt := old(state).attempt + 1))
    {
      var resultCount := |state.result.value|;
      var issue := ClassifyIssue(resultCount, state.parcelCount);
      if issue == NoIssue {
        state := state.(validatedEmptyOk := Some(true), attempt := state.attempt + 1);
        return;
      }
      var response := c.validate(ValidationPromptFor(state, c.tables));
      var verdict := ParseVerdict(response);
      match verdict
      case Accept =>
        state := state.(validatedEmptyOk := Some(true), attempt := state.attempt + 1);
      case Replace(newSql) =>
        state := state.(sql := Some(newSql), validatedEmptyOk := Some(false), attempt := state.attempt + 1);
    }

    /** Runs the current node and follows its outgoing edge. */
    method Step(c: LegacyCollaborators)
      requires node != End
      requires node == ValidateResults ==> state.result.Some?
      modifies this
      ensures executions == old(executions) + (if old(node) == ExecuteSql then 1 else 0)
      ensures old(node) != ExecuteSql ==> state.attempt == old(state).attempt + 1
      ensures old(node) == GenerateSql ==>
                node == ExecuteSql
                && state == old(state).(sql := Some(c.writeSql(c.tables, old(state).question,
                                                               if TruthyText(old(state).previousSql) then old(state).previousSql else None)),
                                        attempt := old(state).attempt + 1)
      ensures old(node) == ExecuteSql ==>
                node == RouteAfterExecute(state) && state == old(state).(result := state.result, error := state.error)
                && (c.database(old(state).sql).Raised? ==>
                      state.result.None? && state.error == Some(c.database(old(state).sql).message))
                && (c.database(old(state).sql).Fetched? ==>
                      state.result == Some(c.database(old(state).sql).rows) && state.error.None?)
      ensures old(node) == RepairSql ==>
                node == ExecuteSql
                && state == old(state).(sql := Some(c.repairSql(RepairPromptFor(old(state), c.tables))),
                                        attempt := old(state).attempt + 1)
      ensures old(node) == ValidateResults ==>
                node == RouteAfterValidate(state)
                && state == old(state).(sql := state.sql, validatedEmptyOk := state.validatedEmptyOk, attempt := old(state).attempt + 1)
                && (state.validatedEmptyOk != Some(true) ==> state.sql.Some? && IsTrimmed(state.sql.value))
                && (ClassifyIssue(|old(state).result.value|, old(state).parcelCount) == NoIssue ==>
                      state.validatedEmptyOk == Some(true) && state.sql == old(state).sql)
                && (ClassifyIssue(|old(state).result.value|, old(state).parcelCount) != NoIssue ==>
                      var v := VerdictOf(c.validate(ValidationPromptFor(old(state), c.tables)));
                      (v.Accept? ==> state.validatedEmptyOk == Some(true) && state.sql == old(state).sql)
                      && (v.Replace? ==> state.validatedEmptyOk == Some(false) && state.sql == Some(v.sql)))
    {
      match node
      case GenerateSql =>
        var previous := if TruthyText(state.previousSql) then state.previousSql else None;
        var response := c.writeSql(c.tables, state.question, previous);
        state := state.(sql := Some(response), attempt := state.attempt + 1);
        node := ExecuteSql;
      case ExecuteSql =>
        var outcome := c.database(state.sql);
        var rows: Option<seq<Row>> := if outcome.Fetched? then Some(outcome.rows) else None;
        var error: Option<string> := if outcome.Raised? then Some(outcome.message) else None;
        state := state.(result := rows, error := error);
        executions := executions + 1;
        node := RouteAfterExecute(state);
      case RepairSql =>
        var response := c.repairSql(RepairPromptFor(state, c.tables));
        state := state.(sql := Some(response), attempt := state.attempt + 1);
        node := ExecuteSql;
      case ValidateResults =>
        Validate(c);
        node := RouteAfterValidate(state);
    }

    /**
     * Runs the graph from SQL generation to the end.  Every execution
     * follows a node that counted an attempt, so from attempt 0 at most
     * three statements run; the run ends with an error, duplicate ids or
     * an unaccepted suspicious count only once the attempts are used up.
     */
    method Run(c: LegacyCollaborators)
      requires node == GenerateSql && executions == 0
      modifies this
      ensures node == End
      ensures state.question == old(state).question && state.parcelCount == old(state).parcelCount
      ensures old(state).attempt + 1 <= state.attempt <= Max(old(state).attempt + 1, MaxAttempts)
      ensures 1 <= executions <= state.attempt - old(state).attempt
      ensures old(state).attempt == 0 ==> executions <= MaxAttempts
      ensures TruthyText(state.error) ==> state.attempt >= MaxAttempts
      ensures !TruthyText(state.error) && state.result.Some? && HasDuplicateIds(state.result.value) ==>
                state.attempt >= MaxAttempts
      ensures !TruthyText(state.error) && state.result.Some? && NeedsValidation(|state.result.value|, state.parcelCount) ==>
                state.validatedEmptyOk == Some(true) || state.attempt >= MaxAttempts
    {
      ghost var a0 := state.attempt;
      ghost var q0 := state.question;
      ghost var pc0 := state.parcelCount;
      while node != End
        invariant state.question == q0 && state.parcelCount == pc0
        invariant node == GenerateSql ==> state.attempt == a0 && executions == 0
        invariant node != GenerateSql ==> a0 + 1 <= state.attempt <= Max(a0 + 1, MaxAttempts)
        invariant node == ExecuteSql ==> executions == state.attempt - a0 - 1
        invariant node == RepairSql || node == ValidateResults ==> 1 <= executions == state.attempt - a0
        invariant node == End ==> 1 <= executions <= state.attempt - a0
        invariant node == RepairSql ==> state.attempt < MaxAttempts
        invariant node == ValidateResults ==>
                    state.attempt < MaxAttempts && state.result.Some? && !TruthyText(state.error)
                    && !HasDuplicateIds(state.result.value)
        invariant node == End ==>
                    (TruthyText(state.error) ==> state.attempt >= MaxAttempts)
                    && (!TruthyText(state.error) && state.result.Some? && HasDuplicateIds(state.result.value) ==>
                          state.attempt >= MaxAttempts)
                    && (!TruthyText(state.error) && state.result.Some? && NeedsValidation(|state.result.value|, state.parcelCount) ==>
                          state.validatedEmptyOk == Some(true) || state.attempt >= MaxAttempts)
        decreases if state.attempt < MaxAttempts then MaxAttempts - state.attempt else 0, Rank(node)
      {
        Step(c);
      }
    }
  }
}
