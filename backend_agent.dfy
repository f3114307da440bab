/**
 * The current text-to-SQL agent: a graph of nodes over a shared state
 * (topic filter, contextual rewrite, SQL generation, execution,
 * validation, up to three repairs, display).  Each node returns a partial
 * update; every channel is overwritten by the value a node writes, except
 * the conversation, to which new turns are appended.  The language model,
 * the database and the geometry decoder are the collaborators passed in.
 */
module BackendAgent {
  import opened Wrappers
  import opened Strings
  import opened PyValues
  import opened Messages
  import opened SqlCleaning
  import opened DbUtils

  const MaxRepairAttempts: int := 3
  const ZeroResultsMessage: string := "Query executed successfully but returned 0 results."
  const OffTopicMessage: string := "I can only assist with land parcel search and filtering for solar site selection."
  const NoVagueMessage: string := "No vague conditions detected."
  const VagueHeader: string := "I noticed a few vague parts of your query:"
  const VagueFooter: string := "\nIs this what you had in mind? You can confirm or clarify any of these."

  /** The shared state; a channel no node has written yet reads as `None`. */
  datatype AgentState = AgentState(
    userQuery: string,
    expandedQuery: Option<string>,
    sqlQuery: Option<string>,
    results: Option<seq<Row>>,
    relevantQueryTopic: Option<bool>,
    topicFilterMessage: Option<string>,
    error: Option<string>,
    lastFailedSql: Option<string>,
    attempt: int,
    conversation: seq<Turn>)

  /** A node's partial update: `None` leaves a channel alone, `Some(v)` writes `v`; `turns` are appended. */
  datatype Update = Update(
    userQuery: Option<string>,
    expandedQuery: Option<Option<string>>,
    sqlQuery: Option<Option<string>>,
    results: Option<Option<seq<Row>>>,
    relevantQueryTopic: Option<Option<bool>>,
    topicFilterMessage: Option<Option<string>>,
    error: Option<Option<string>>,
    lastFailedSql: Option<Option<string>>,
    attempt: Option<int>,
    turns: seq<Turn>)

  const NoUpdate: Update := Update(None, None, None, None, None, None, None, None, None, [])

  function Overwrite<T>(current: T, written: Option<T>): T {
    match written
    case Some(v) => v
    case None => current
  }

  /** The graph's reducer: written channels take the new value, the conversation only grows. */
  function Merge(s: AgentState, u: Update): (r: AgentState)
    ensures r.conversation == s.conversation + u.turns
    ensures u.error.None? ==> r.error == s.error
    ensures u.error.Some? ==> r.error == u.error.value
    ensures u.attempt.None? ==> r.attempt == s.attempt
    ensures u.sqlQuery.None? ==> r.sqlQuery == s.sqlQuery
    ensures u.results.None? ==> r.results == s.results
    ensures u.relevantQueryTopic.None? ==> r.relevantQueryTopic == s.relevantQueryTopic
    ensures u == NoUpdate ==> r == s
  {
    AgentState(
      Overwrite(s.userQuery, u.userQuery),
      Overwrite(s.expandedQuery, u.expandedQuery),
      Overwrite(s.sqlQuery, u.sqlQuery),
      Overwrite(s.results, u.results),
      Overwrite(s.relevantQueryTopic, u.relevantQueryTopic),
      Overwrite(s.topicFilterMessage, u.topicFilterMessage),
      Overwrite(s.error, u.error),
      Overwrite(s.lastFailedSql, u.lastFailedSql),
      Overwrite(s.attempt, u.attempt),
      s.conversation + u.turns)
  }

  /** The input the streaming endpoint sends for a new question, which the saved session state absorbs. */
  function StartUpdate(query: string): Update {
    Update(Some(query), Some(None), Some(None), Some(None), None, None, Some(None), Some(None), Some(0), [])
  }

  /** The state a turn starts from: the question and cleared working channels; the conversation and the topic flags are kept. */
  function BeginTurn(saved: AgentState, query: string): (s: AgentState)
    ensures s.userQuery == query && s.attempt == 0
    ensures s.expandedQuery.None? && s.sqlQuery.None? && s.results.None? && s.error.None? && s.lastFailedSql.None?
    ensures s.conversation == saved.conversation
    ensures s.relevantQueryTopic == saved.relevantQueryTopic && s.topicFilterMessage == saved.topicFilterMessage
  {
    Merge(saved, StartUpdate(query))
  }

  predicate NoResults(s: AgentState) {
    s.results.None? || |s.results.value| == 0
  }

  /**
   * The topic classifier's parsed JSON reply: `solar_query` when present,
   * and `message` when present (`None` inside for a JSON null).
   */
  datatype TopicReply = TopicReply(solarQuery: Option<Value>, message: Option<Option<string>>)

  /** `topic_filter`: a falsy or missing verdict marks the question off-topic and records the refusal as the error. */
  function TopicFilterUpdate(s: AgentState, classify: string -> TopicReply): (u: Update)
    ensures var reply := classify(s.userQuery);
            var relevant := Truthy(reply.solarQuery.GetOr(VBool(false)));
            var r := Merge(s, u);
            r.relevantQueryTopic == Some(relevant)
            && (relevant ==> r == s.(relevantQueryTopic := Some(true)))
            && (!relevant ==> r.error == r.topicFilterMessage == reply.message.GetOr(Some(OffTopicMessage)))
            && (!relevant && reply.message.None? ==> r.error == Some(OffTopicMessage))
            && r.sqlQuery == s.sqlQuery && r.attempt == s.attempt && r.conversation == s.conversation
  {
    var reply := classify(s.userQuery);
    var isRelevant := reply.solarQuery.GetOr(VBool(false));
    if !Truthy(isRelevant) then
      var errorMessage := reply.message.GetOr(Some(OffTopicMessage));
      NoUpdate.(relevantQueryTopic := Some(Some(false)), topicFilterMessage := Some(errorMessage), error := Some(errorMessage))
    else
      NoUpdate.(relevantQueryTopic := Some(Some(true)))
  }

  /** `contextual_query_understanding`: stores the stripped rewrite and records the question and the rewrite as two turns. */
  function ContextualUpdate(s: AgentState, rewrite: (seq<Turn>, string) -> string): (u: Update)
    ensures var r := Merge(s, u);
            r.expandedQuery == Some(Strip(rewrite(s.conversation, s.userQuery)))
            && IsTrimmed(r.expandedQuery.value)
            && r.conversation == s.conversation + [Turn(User, s.userQuery), Turn(Assistant, r.expandedQuery.value)]
            && r == s.(expandedQuery := r.expandedQuery, conversation := r.conversation)
  {
    var rewritten := Strip(rewrite(s.conversation, s.userQuery));
    NoUpdate.(expandedQuery := Some(Some(rewritten)),
              turns := [Turn(User, s.userQuery), Turn(Assistant, rewritten)])
  }

  /** `validate_sql`: missing or empty results become the zero-results error, remembering the SQL; any other outcome clears the error. */
  function ValidateUpdate(s: AgentState): (u: Update)
    ensures var r := Merge(s, u);
            (TruthyText(r.error) <==> NoResults(s))
            && (NoResults(s) ==> r.error == Some(ZeroResultsMessage) && r.lastFailedSql == s.sqlQuery)
            && (!NoResults(s) ==> r.error.None? && r.lastFailedSql == s.lastFailedSql)
            && r == s.(error := r.error, lastFailedSql := r.lastFailedSql)
  {
    if s.results.None? || |s.results.value| == 0 then
      NoUpdate.(error := Some(Some(ZeroResultsMessage)), lastFailedSql := Some(s.sqlQuery))
    else
      NoUpdate.(error := Some(None))
  }

  /** `display_results`: a set error not already the last turn's text is appended as an assistant turn; nothing else changes. */
  function DisplayUpdate(s: AgentState): (u: Update)
    ensures var r := Merge(s, u);
            r == s.(conversation := r.conversation)
            && (TruthyText(s.error) ==> |r.conversation| > 0 && r.conversation[|r.conversation| - 1].content == s.error.value)
            && (TruthyText(s.error) && |s.conversation| > 0 && s.conversation[|s.conversation| - 1].content == s.error.value ==>
                  r == s)
            && (|r.conversation| > |s.conversation| ==>
                  s.error.Some? && r.conversation == s.conversation + [Turn(Assistant, s.error.value)])
            && (!TruthyText(s.error) ==> r == s)
            && |s.conversation| <= |r.conversation| <= |s.conversation| + 1
  {
    var conversation := s.conversation;
    if TruthyText(s.error) && (|conversation| == 0 || conversation[|conversation| - 1].content != s.error.value) then
      NoUpdate.(turns := [Turn(Assistant, s.error.value)])
    else
      NoUpdate
  }

  /** Displaying twice records the error once. */
  lemma {:induction false} DisplayIdempotent(s: AgentState)
    ensures var r := Merge(s, DisplayUpdate(s)); Merge(r, DisplayUpdate(r)) == r
  {
  }

  datatype Node =
    | TopicFilter
    | ContextualQueryUnderstanding
    | GenerateSql
    | ExecuteSql
    | ValidateSql
    | RepairSql
    | DisplayResults
    | Finished

  /** `route_after_topic_filter`: only an explicit off-topic verdict skips to the display. */
  function RouteAfterTopicFilter(s: AgentState): (n: Node)
    ensures n == DisplayResults <==> s.relevantQueryTopic == Some(false)
    ensures n != DisplayResults ==> n == ContextualQueryUnderstanding
  {
    if s.relevantQueryTopic == Some(false) then DisplayResults else ContextualQueryUnderstanding
  }

  /** `route_after_validate`: repair while an error is set and fewer than three repairs were made. */
  function RouteAfterValidate(s: AgentState): (n: Node)
    ensures n == RepairSql <==> TruthyText(s.error) && s.attempt < MaxRepairAttempts
    ensures n != RepairSql ==> n == DisplayResults
  {
    if TruthyText(s.error) && s.attempt < MaxRepairAttempts then RepairSql else DisplayResults
  }

  /** Successor ranks within one repair round, used to bound the run. */
  function Rank(n: Node): nat {
    match n
    case TopicFilter => 7
    case ContextualQueryUnderstanding => 6
    case GenerateSql => 5
    case ExecuteSql => 4
    case ValidateSql => 3
    case RepairSql => 2
    case DisplayResults => 1
    case Finished => 0
  }

  function Max(a: int, b: int): int {
    if a < b then b else a
  }

  /** One vague condition the model proposes to make concrete. */
  datatype VagueCondition = VagueCondition(original: string, suggestedReplacement: string)

  function InterpretationLine(c: VagueCondition): string {
    "- \"" + c.original + "\" \U{2192} I interpreted as: " + c.suggestedReplacement
  }

  /** The lines of the clarification message: a header, one line per condition, a closing question. */
  function Interpretations(conditions: seq<VagueCondition>): (r: seq<string>)
    ensures |r| == |conditions|
    ensures forall k :: 0 <= k < |conditions| ==> r[k] == InterpretationLine(conditions[k])
  {
    seq(|conditions|, k requires 0 <= k < |conditions| => InterpretationLine(conditions[k]))
  }

  function ClarificationLines(conditions: seq<VagueCondition>): (r: seq<string>)
    ensures |r| == |conditions| + 2 && r[0] == VagueHeader && r[|r| - 1] == VagueFooter
    ensures r[1..|r| - 1] == Interpretations(conditions)
  {
    var r := [VagueHeader] + Interpretations(conditions) + [VagueFooter];
    assert r[1..|r| - 1] == Interpretations(conditions);
    r
  }

  /** The clarification message opens with its header. */
  lemma {:induction false} ClarificationOpensWithHeader(conditions: seq<VagueCondition>)
    ensures StartsWith(Join("\n", ClarificationLines(conditions)), VagueHeader)
  {
    JoinStartsWithFirst("\n", ClarificationLines(conditions));
  }

  /**
   * `resolve_vague_conditions` (defined but not wired into the graph):
   * `parsed` is the condition list of the model's JSON reply, absent when
   * the reply does not parse.
   */
  method ResolveVagueConditions(parsed: Option<seq<VagueCondition>>) returns (u: Update)
    ensures (parsed.None? || |parsed.value| == 0) ==> u == NoUpdate.(turns := [Turn(Assistant, NoVagueMessage)])
    ensures parsed.Some? && |parsed.value| > 0 ==>
              u == NoUpdate.(turns := [Turn(Assistant, Join("\n", ClarificationLines(parsed.value)))])
  {
    var vagueConditions: seq<VagueCondition> := if parsed.Some? then parsed.value else [];
    if |vagueConditions| == 0 {
      return NoUpdate.(turns := [Turn(Assistant, NoVagueMessage)]);
    }
    var messageLines := [VagueHeader];
    var i := 0;
    while i < |vagueConditions|
      invariant 0 <= i <= |vagueConditions|
      invariant messageLines == [VagueHeader] + Interpretations(vagueConditions[..i])
    {
      assert Interpretations(vagueConditions[..i + 1])
          == Interpretations(vagueConditions[..i]) + [InterpretationLine(vagueConditions[i])];
      messageLines := messageLines + [InterpretationLine(vagueConditions[i])];
      i := i + 1;
    }
    assert vagueConditions[..i] == vagueConditions;
    messageLines := messageLines + [VagueFooter];
    u := NoUpdate.(turns := [Turn(Assistant, Join("\n", messageLines))]);
  }

  /** The collaborators a run talks to; each stands for a model call, the database or the geometry decoder. */
  datatype Collaborators = Collaborators(
    classifyTopic: string -> TopicReply,
    rewriteQuery: (seq<Turn>, string) -> string,
    writeSql: (string, Option<string>) -> string,
    fixSql: (Option<string>, Option<string>) -> string,
    database: Option<string> -> DbOutcome,
    toGeoJson: Value -> Option<Value>)

  /** `repair_sql`'s update: the fixed SQL replaces the old one, the error is cleared and one more attempt is counted. */
  function Repaired(s: AgentState, fixed: string): AgentState {
    s.(sqlQuery := Some(fixed), error := None, attempt := s.attempt + 1)
  }

  /** The repair prompt's reply, stripped and cleaned. */
  method FixedSql(s: AgentState, fixSql: (Option<string>, Option<string>) -> string) returns (fixed: string)
    ensures fixed == Cleaned(Strip(fixSql(s.lastFailedSql, s.error)))
    ensures IsTrimmed(fixed) && !Contains(fixed, Fence)
    ensures !HasSqlLabel(Unfenced(Strip(fixSql(s.lastFailedSql, s.error)))) ==>
              fixed == Unfenced(Strip(fixSql(s.lastFailedSql, s.error)))
  {
    var response := Strip(fixSql(s.lastFailedSql, s.error));
    fixed := CleanSql(response);
  }

  /**
   * What holds at every node of a run that started from `s0`; `allFail`
   * says that every database call returns no rows.
   */
  ghost predicate Progress(s0: AgentState, allFail: bool, s: AgentState, node: Node, executions: nat) {
    var a0 := s0.attempt;
    var c0 := s0.conversation;
    s.userQuery == s0.userQuery
    && c0 <= s.conversation && |s.conversation| <= |c0| + 3
    && (node != Finished ==> |s.conversation| <= |c0| + 2)
    && executions <= s.attempt - a0 + 1
    && a0 <= s.attempt <= Max(a0, MaxRepairAttempts)
    && (node == TopicFilter ==> s == s0 && executions == 0)
    && (node != TopicFilter ==> s.relevantQueryTopic.Some?)
    && (node != TopicFilter && s.relevantQueryTopic == Some(false) ==>
          (node == DisplayResults || node == Finished)
          && executions == 0 && s.sqlQuery == s0.sqlQuery && s.attempt == a0
          && |s.conversation| <= |c0| + (if node == Finished then 1 else 0))
    && (node == ContextualQueryUnderstanding ==>
          s.relevantQueryTopic == Some(true) && s.conversation == c0 && executions == 0 && s.attempt == a0)
    && (node != TopicFilter && node != ContextualQueryUnderstanding && s.relevantQueryTopic == Some(true) ==>
          s.expandedQuery.Some? && |c0| + 2 <= |s.conversation|
          && s.conversation[|c0|] == Turn(User, s0.userQuery)
          && s.conversation[|c0| + 1] == Turn(Assistant, s.expandedQuery.value)
          && (node != Finished ==> |s.conversation| == |c0| + 2))
    && (node == GenerateSql ==> s.relevantQueryTopic == Some(true) && executions == 0 && s.attempt == a0)
    && (node == ExecuteSql ==> s.relevantQueryTopic == Some(true) && executions == s.attempt - a0)
    && (node == ValidateSql ==> s.relevantQueryTopic == Some(true) && executions == s.attempt - a0 + 1)
    && (node == ValidateSql && allFail ==> NoResults(s))
    && (node == RepairSql ==>
          s.relevantQueryTopic == Some(true) && executions == s.attempt - a0 + 1
          && TruthyText(s.error) && s.attempt < MaxRepairAttempts)
    && ((node == DisplayResults || node == Finished) && s.relevantQueryTopic == Some(true) ==>
          executions == s.attempt - a0 + 1
          && ((s.error.None? && !NoResults(s))
              || (s.error == Some(ZeroResultsMessage) && s.attempt >= MaxRepairAttempts)))
    && ((node == DisplayResults || node == Finished) && s.relevantQueryTopic == Some(true) && allFail ==>
          s.error == Some(ZeroResultsMessage))
    && (node == Finished && TruthyText(s.error) ==>
          |s.conversation| > 0 && s.conversation[|s.conversation| - 1].content == s.error.value)
  }

  lemma {:induction false} TopicFilterKeeps(s0: AgentState, allFail: bool, classify: string -> TopicReply, s': AgentState)
    requires s' == Merge(s0, TopicFilterUpdate(s0, classify))
    ensures Progress(s0, allFail, s', RouteAfterTopicFilter(s'), 0) && s'.attempt == s0.attempt
  {
  }

  lemma {:induction false} ContextualKeeps(s0: AgentState, allFail: bool, s: AgentState, e: nat,
                                           rewrite: (seq<Turn>, string) -> string, s': AgentState)
    requires Progress(s0, allFail, s, ContextualQueryUnderstanding, e)
    requires s' == Merge(s, ContextualUpdate(s, rewrite))
    ensures Progress(s0, allFail, s', GenerateSql, e) && s'.attempt == s.attempt
  {
  }

  lemma {:induction false} GenerateKeeps(s0: AgentState, allFail: bool, s: AgentState, e: nat, s': AgentState)
    requires Progress(s0, allFail, s, GenerateSql, e)
    requires s' == s.(sqlQuery := s'.sqlQuery)
    ensures Progress(s0, allFail, s', ExecuteSql, e) && s'.attempt == s.attempt
  {
  }

  lemma {:induction false} ExecuteKeeps(s0: AgentState, allFail: bool, s: AgentState, e: nat,
                                        outcome: DbOutcome, toGeoJson: Value -> Option<Value>, s': AgentState)
    requires Progress(s0, allFail, s, ExecuteSql, e)
    requires s' == s.(results := s'.results, error := s'.error)
    requires allFail ==> NoRows(outcome)
    requires outcome.Raised? ==> s'.results.None?
    requires outcome.Fetched? ==> s'.results == Some(ConvertedRows(outcome.rows, toGeoJson))
    ensures Progress(s0, allFail, s', ValidateSql, e + 1) && s'.attempt == s.attempt
  {
  }

  lemma {:induction false} ValidateKeeps(s0: AgentState, allFail: bool, s: AgentState, e: nat, s': AgentState)
    requires Progress(s0, allFail, s, ValidateSql, e)
    requires s' == Merge(s, ValidateUpdate(s))
    ensures Progress(s0, allFail, s', RouteAfterValidate(s'), e) && s'.attempt == s.attempt
  {
  }

  lemma {:induction false} RepairKeeps(s0: AgentState, allFail: bool, s: AgentState, e: nat, s': AgentState)
    requires Progress(s0, allFail, s, RepairSql, e)
    requires !TruthyText(s.error) ==> s' == s
    requires TruthyText(s.error) ==> s'.sqlQuery.Some? && s' == Repaired(s, s'.sqlQuery.value)
    ensures Progress(s0, allFail, s', ExecuteSql, e) && s'.attempt == s.attempt + 1 <= MaxRepairAttempts
  {
  }

  lemma {:induction false} DisplayKeeps(s0: AgentState, allFail: bool, s: AgentState, e: nat, s': AgentState)
    requires Progress(s0, allFail, s, DisplayResults, e)
    requires s' == Merge(s, DisplayUpdate(s))
    ensures Progress(s0, allFail, s', Finished, e) && s'.attempt == s.attempt
  {
  }

  /** One step of the graph, as `SqlGraph.Step` states it, keeps `Progress` and lowers the run's measure. */
  lemma {:induction false} StepKeeps(s0: AgentState, allFail: bool, c: Collaborators, schema: string,
                                     s: AgentState, n: Node, e: nat, s': AgentState, n': Node, e': nat)
    requires n != Finished && Progress(s0, allFail, s, n, e)
    requires allFail == forall q :: NoRows(c.database(q))
    requires e' == e + (if n == ExecuteSql then 1 else 0)
    requires n == TopicFilter ==> s' == Merge(s, TopicFilterUpdate(s, c.classifyTopic)) && n' == RouteAfterTopicFilter(s')
    requires n == ContextualQueryUnderstanding ==> s' == Merge(s, ContextualUpdate(s, c.rewriteQuery)) && n' == GenerateSql
    requires n == GenerateSql ==> n' == ExecuteSql && s' == s.(sqlQuery := s'.sqlQuery)
    requires n == ExecuteSql ==>
               n' == ValidateSql && s' == s.(results := s'.results, error := s'.error)
               && (c.database(s.sqlQuery).Raised? ==> s'.results.None?)
               && (c.database(s.sqlQuery).Fetched? ==>
                     s'.results == Some(ConvertedRows(c.database(s.sqlQuery).rows, c.toGeoJson)))
    requires n == ValidateSql ==> s' == Merge(s, ValidateUpdate(s)) && n' == RouteAfterValidate(s')
    requires n == RepairSql ==>
               n' == ExecuteSql && (!TruthyText(s.error) ==> s' == s)
               && (TruthyText(s.error) ==> s'.sqlQuery.Some? && s' == Repaired(s, s'.sqlQuery.value))
    requires n == DisplayResults ==> s' == Merge(s, DisplayUpdate(s)) && n' == Finished
    ensures Progress(s0, allFail, s', n', e')
    ensures (n == RepairSql && s'.attempt == s.attempt + 1 <= MaxRepairAttempts)
            || (n != RepairSql && s'.attempt == s.attempt && Rank(n') < Rank(n))
  {
    if n == TopicFilter {
      TopicFilterKeeps(s0, allFail, c.classifyTopic, s');
    } else if n == ContextualQueryUnderstanding {
      ContextualKeeps(s0, allFail, s, e, c.rewriteQuery, s');
    } else if n == GenerateSql {
      GenerateKeeps(s0, allFail, s, e, s');
    } else if n == ExecuteSql {
      ExecuteKeeps(s0, allFail, s, e, c.database(s.sqlQuery), c.toGeoJson, s');
    } else if n == ValidateSql {
      ValidateKeeps(s0, allFail, s, e, s');
    } else if n == RepairSql {
      RepairKeeps(s0, allFail, s, e, s');
    } else {
      DisplayKeeps(s0, allFail, s, e, s');
    }
  }

  /** What `Progress` at the end node says about the whole run. */
  lemma {:induction false} RunEnds(s0: AgentState, allFail: bool, c: Collaborators, s: AgentState, e: nat)
    requires Progress(s0, allFail, s, Finished, e)
    requires allFail == forall q :: NoRows(c.database(q))
    ensures s.userQuery == s0.userQuery && s.relevantQueryTopic.Some?
    ensures s0.attempt <= s.attempt <= Max(s0.attempt, MaxRepairAttempts)
    ensures e <= s.attempt - s0.attempt + 1
    ensures s0.conversation <= s.conversation && |s.conversation| <= |s0.conversation| + 3
    ensures s.relevantQueryTopic == Some(false) ==>
              e == 0 && s.sqlQuery == s0.sqlQuery && |s.conversation| <= |s0.conversation| + 1
    ensures s.relevantQueryTopic == Some(true) ==>
              e == s.attempt - s0.attempt + 1
              && s.expandedQuery.Some? && |s.conversation| >= |s0.conversation| + 2
              && s.conversation[|s0.conversation|] == Turn(User, s0.userQuery)
              && s.conversation[|s0.conversation| + 1] == Turn(Assistant, s.expandedQuery.value)
              && ((s.error.None? && !NoResults(s))
                  || (s.error == Some(ZeroResultsMessage) && s.attempt >= MaxRepairAttempts))
    ensures allFail && s.relevantQueryTopic == Some(true) && s0.attempt <= MaxRepairAttempts ==>
              s.attempt == MaxRepairAttempts && s.error == Some(ZeroResultsMessage)
              && e == MaxRepairAttempts - s0.attempt + 1
    ensures TruthyText(s.error) ==>
              |s.conversation| > 0 && s.conversation[|s.conversation| - 1].content == s.error.value
  {
  }

  /** The compiled graph running one turn of a session. */
  class SqlGraph {
    var state: AgentState
    var node: Node
    ghost var executions: nat
    const schema: string

    constructor (saved: AgentState, query: string, schema: string)
      ensures state == BeginTurn(saved, query) && node == TopicFilter && executions == 0 && this.schema == schema
    {
      state := BeginTurn(saved, query);
      node := TopicFilter;
      executions := 0;
      this.schema := schema;
    }

    /** Runs the current node and follows its outgoing edge. */
    method Step(c: Collaborators)
      requires node != Finished
      modifies this
      ensures executions == old(executions) + (if old(node) == ExecuteSql then 1 else 0)
      ensures old(node) == TopicFilter ==>
                state == Merge(old(state), TopicFilterUpdate(old(state), c.classifyTopic))
                && node == RouteAfterTopicFilter(state)
      ensures old(node) == ContextualQueryUnderstanding ==>
                state == Merge(old(state), ContextualUpdate(old(state), c.rewriteQuery)) && node == GenerateSql
      ensures old(node) == GenerateSql ==>
                node == ExecuteSql && state == old(state).(sqlQuery := state.sqlQuery)
                && state.sqlQuery == Some(Cleaned(c.writeSql(schema, old(state).expandedQuery)))
                && state.sqlQuery.Some? && IsTrimmed(state.sqlQuery.value) && !Contains(state.sqlQuery.value, Fence)
                && (!HasSqlLabel(Unfenced(c.writeSql(schema, old(state).expandedQuery))) ==>
                      state.sqlQuery == Some(Unfenced(c.writeSql(schema, old(state).expandedQuery))))
      ensures old(node) == ExecuteSql ==>
                node == ValidateSql && state == old(state).(results := state.results, error := state.error)
                && (c.database(old(state).sqlQuery).Raised? ==>
                      state.results.None? && state.error == Some(c.database(old(state).sqlQuery).message))
                && (c.database(old(state).sqlQuery).Fetched? ==>
                      state.results == Some(ConvertedRows(c.database(old(state).sqlQuery).rows, c.toGeoJson))
                      && state.error.None?)
      ensures old(node) == ValidateSql ==>
                state == Merge(old(state), ValidateUpdate(old(state))) && node == RouteAfterValidate(state)
      ensures old(node) == RepairSql ==>
                node == ExecuteSql
                && (!TruthyText(old(state).error) ==> state == old(state))
                && (TruthyText(old(state).error) ==>
                      state.sqlQuery.Some? && state == Repaired(old(state), state.sqlQuery.value)
                      && state.sqlQuery == Some(Cleaned(Strip(c.fixSql(old(state).lastFailedSql, old(state).error))))
                      && IsTrimmed(state.sqlQuery.value) && !Contains(state.sqlQuery.value, Fence))
      ensures old(node) == DisplayResults ==>
                state == Merge(old(state), DisplayUpdate(old(state))) && node == Finished
    {
      match node
      case TopicFilter =>
        state := Merge(state, TopicFilterUpdate(state, c.classifyTopic));
        node := RouteAfterTopicFilter(state);
      case ContextualQueryUnderstanding =>
        state := Merge(state, ContextualUpdate(state, c.rewriteQuery));
        node := GenerateSql;
      case GenerateSql =>
        var response := c.writeSql(schema, state.expandedQuery);
        var sql := CleanSql(response);
        state := state.(sqlQuery := Some(sql));
        node := ExecuteSql;
      case ExecuteSql =>
        var rows, error := RunQuery(c.database(state.sqlQuery), c.toGeoJson);
        state := state.(results := rows, error := error);
        executions := executions + 1;
        node := ValidateSql;
      case ValidateSql =>
        state := Merge(state, ValidateUpdate(state));
        node := RouteAfterValidate(state);
      case RepairSql =>
        if TruthyText(state.error) {
          var fixed := FixedSql(state, c.fixSql);
          state := Repaired(state, fixed);
        }
        node := ExecuteSql;
      case DisplayResults =>
        state := Merge(state, DisplayUpdate(state));
        node := Finished;
    }

    /**
     * Runs the graph from the topic filter to the end.  The run stops;
     * at most three repairs are made and each repair is followed by one
     * more execution; an off-topic question runs no SQL; an answered
     * question ends with rows and no error, or with the zero-results error
     * after the last repair; a database that never returns rows uses up
     * every repair; an error left at the end is the conversation's last
     * turn.
     */
    method Run(c: Collaborators)
      requires node == TopicFilter && executions == 0
      modifies this
      ensures node == Finished
      ensures state.userQuery == old(state).userQuery && state.relevantQueryTopic.Some?
      ensures old(state).attempt <= state.attempt <= Max(old(state).attempt, MaxRepairAttempts)
      ensures executions <= state.attempt - old(state).attempt + 1
      ensures old(state).conversation <= state.conversation
      ensures |state.conversation| <= |old(state).conversation| + 3
      ensures state.relevantQueryTopic == Some(false) ==>
                executions == 0 && state.sqlQuery == old(state).sqlQuery
                && |state.conversation| <= |old(state).conversation| + 1
      ensures state.relevantQueryTopic == Some(true) ==>
                executions == state.attempt - old(state).attempt + 1
                && state.expandedQuery.Some? && |state.conversation| >= |old(state).conversation| + 2
                && state.conversation[|old(state).conversation|] == Turn(User, old(state).userQuery)
                && state.conversation[|old(state).conversation| + 1] == Turn(Assistant, state.expandedQuery.value)
                && ((state.error.None? && !NoResults(state))
                    || (state.error == Some(ZeroResultsMessage) && state.attempt >= MaxRepairAttempts))
      ensures (forall q :: NoRows(c.database(q))) && state.relevantQueryTopic == Some(true)
              && old(state).attempt <= MaxRepairAttempts ==>
                state.attempt == MaxRepairAttempts && state.error == Some(ZeroResultsMessage)
                && executions == MaxRepairAttempts - old(state).attempt + 1
      ensures TruthyText(state.error) ==>
                |state.conversation| > 0 && state.conversation[|state.conversation| - 1].content == state.error.value
    {
      ghost var s0 := state;
      ghost var allFail := forall q :: NoRows(c.database(q));
      while node != Finished
        invariant Progress(s0, allFail, state, node, executions)
        decreases if state.attempt < MaxRepairAttempts then MaxRepairAttempts - state.attempt else 0, Rank(node)
      {
        ghost var sb, nb, eb := state, node, executions;
        Step(c);
        StepKeeps(s0, allFail, c, schema, sb, nb, eb, state, node, executions);
      }
      RunEnds(s0, allFail, c, state, executions);
    }
  }
}
