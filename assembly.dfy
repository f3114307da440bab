/**
 * How the two API servers turn the agent's final state into a response:
 * the explanation taken from the conversation, the parcels built from the
 * result rows, and the summary sentence.  The streaming endpoint also
 * answers vague questions and filters explanations that merely echo the
 * question; the plain search endpoint takes the newest assistant turn as
 * it is.
 */
module ResultAssembly {
  import opened Wrappers
  import opened Strings
  import opened PyValues
  import opened Indices
  import opened Messages
  import opened Geometry
  import opened Parcels

  const NotAvailableMarker: string := "not available in the database"
  const VagueFallback: string := "Please clarify vague conditions in your query."
  const NoParcelsSentence: string := "No parcels found matching your criteria."
  const ErrorPrefix: string := "Error: "

  /** `request.session_id or str(uuid.uuid4())`: `generated` is the new UUID. */
  function SessionId(requested: Option<string>, generated: string): (id: string)
    ensures TruthyText(requested) ==> id == requested.value
    ensures !TruthyText(requested) ==> id == generated
  {
    if TruthyText(requested) then requested.value else generated
  }

  /** The outcome of a test that may raise: `startswith(None)` raises a `TypeError`. */
  datatype Check = Pass | Fail | Raise

  /**
   * The echo filter: the text must differ from the question and its
   * rewrite and start with neither.  The rewrite is absent when the run
   * never rewrote the question, and testing a prefix against it raises.
   */
  function EchoCheck(content: string, userQuery: string, expandedQuery: Option<string>): Check {
    if content == userQuery || (expandedQuery.Some? && content == expandedQuery.value) then Fail
    else if StartsWith(content, userQuery) then Fail
    else if expandedQuery.None? then Raise
    else if StartsWith(content, expandedQuery.value) then Fail
    else Pass
  }

  /** The equality tests are subsumed by the prefix tests: only the prefixes decide, and a missing rewrite raises unless the question is a prefix. */
  lemma {:induction false} EchoCheckIsPrefixTest(content: string, userQuery: string, expandedQuery: Option<string>)
    ensures EchoCheck(content, userQuery, expandedQuery) == Pass <==>
              expandedQuery.Some? && !StartsWith(content, userQuery) && !StartsWith(content, expandedQuery.value)
    ensures EchoCheck(content, userQuery, expandedQuery) == Raise <==>
              expandedQuery.None? && !StartsWith(content, userQuery)
  {
    if content == userQuery {
      assert content[..|userQuery|] == userQuery;
    }
    if expandedQuery.Some? && content == expandedQuery.value {
      assert content[..|expandedQuery.value|] == expandedQuery.value;
    }
  }

  /** An empty question is a prefix of everything, so no turn ever passes the echo filter. */
  lemma {:induction false} EmptyQueryNeverPasses(content: string, expandedQuery: Option<string>)
    ensures EchoCheck(content, "", expandedQuery) == Fail
  {
    assert content[..0] == "";
  }

  /** One turn in the streaming explanation scan: a non-empty assistant text without the not-available remark, then the echo filter. */
  function TurnVerdict(t: Turn, userQuery: string, expandedQuery: Option<string>): Check {
    if t.role != Assistant || t.content == "" then Fail
    else if Contains(t.content, NotAvailableMarker) then Fail
    else EchoCheck(t.content, userQuery, expandedQuery)
  }

  datatype Scan = Found(text: string) | NotFound | ScanRaised

  /** The scan from the newest turn backward: the first passing turn is the explanation, the first raising turn aborts. */
  function NewestExplanation(conversation: seq<Turn>, userQuery: string, expandedQuery: Option<string>): Scan
    decreases |conversation|
  {
    if |conversation| == 0 then NotFound
    else
      var last := conversation[|conversation| - 1];
      match TurnVerdict(last, userQuery, expandedQuery)
      case Pass => Found(last.content)
      case Raise => ScanRaised
      case Fail => NewestExplanation(conversation[..|conversation| - 1], userQuery, expandedQuery)
  }

  /** The explanation found is the text of a passing turn after which every turn fails the filter. */
  lemma {:induction false} ExplanationIsNewestPassing(conversation: seq<Turn>, userQuery: string, expandedQuery: Option<string>)
    returns (i: nat)
    requires NewestExplanation(conversation, userQuery, expandedQuery).Found?
    ensures i < |conversation| && TurnVerdict(conversation[i], userQuery, expandedQuery) == Pass
    ensures NewestExplanation(conversation, userQuery, expandedQuery).text == conversation[i].content
    ensures forall j :: i < j < |conversation| ==> TurnVerdict(conversation[j], userQuery, expandedQuery) == Fail
    decreases |conversation|
  {
    var n := |conversation|;
    if TurnVerdict(conversation[n - 1], userQuery, expandedQuery) == Pass {
      i := n - 1;
    } else {
      var prefix := conversation[..n - 1];
      i := ExplanationIsNewestPassing(prefix, userQuery, expandedQuery);
      forall j | i < j < n
        ensures TurnVerdict(conversation[j], userQuery, expandedQuery) == Fail
      {
        if j < n - 1 {
          assert conversation[j] == prefix[j];
        }
      }
    }
  }

  /** Without an explanation every turn fails the filter. */
  lemma {:induction false} NoExplanationAllFail(conversation: seq<Turn>, userQuery: string, expandedQuery: Option<string>)
    requires NewestExplanation(conversation, userQuery, expandedQuery) == NotFound
    ensures forall j :: 0 <= j < |conversation| ==> TurnVerdict(conversation[j], userQuery, expandedQuery) == Fail
    decreases |conversation|
  {
    var n := |conversation|;
    if n > 0 {
      var prefix := conversation[..n - 1];
      NoExplanationAllFail(prefix, userQuery, expandedQuery);
      assert forall j :: 0 <= j < n - 1 ==> conversation[j] == prefix[j];
    }
  }

  /** The found explanation passes the summary's echo filter again, so the second test never raises. */
  lemma {:induction false} ExplanationPassesAgain(conversation: seq<Turn>, userQuery: string, expandedQuery: Option<string>)
    requires NewestExplanation(conversation, userQuery, expandedQuery).Found?
    ensures var t := NewestExplanation(conversation, userQuery, expandedQuery).text;
            t != "" && EchoCheck(t, userQuery, expandedQuery) == Pass
  {
    var i := ExplanationIsNewestPassing(conversation, userQuery, expandedQuery);
  }

  /** The newest assistant turn's text; with `skipEmpty` only a non-empty text counts. */
  function NewestAssistant(conversation: seq<Turn>, skipEmpty: bool): (r: Option<string>)
    ensures r.Some? ==> exists i :: 0 <= i < |conversation| && conversation[i] == Turn(Assistant, r.value)
    ensures r.Some? && skipEmpty ==> r.value != ""
    decreases |conversation|
  {
    if |conversation| == 0 then None
    else
      var last := conversation[|conversation| - 1];
      if Qualifies(last, skipEmpty) then Some(last.content)
      else
        var prefix := conversation[..|conversation| - 1];
        assert forall k :: 0 <= k < |prefix| ==> prefix[k] == conversation[k];
        NewestAssistant(prefix, skipEmpty)
  }

  /** An assistant turn, with a non-empty text when `skipEmpty`. */
  predicate Qualifies(t: Turn, skipEmpty: bool) {
    t.role == Assistant && (!skipEmpty || t.content != "")
  }

  /** The text found is that of the newest qualifying turn. */
  lemma {:induction false} NewestAssistantIsNewest(conversation: seq<Turn>, skipEmpty: bool) returns (i: nat)
    requires NewestAssistant(conversation, skipEmpty).Some?
    ensures i < |conversation| && Qualifies(conversation[i], skipEmpty)
    ensures NewestAssistant(conversation, skipEmpty).value == conversation[i].content
    ensures forall j :: i < j < |conversation| ==> !Qualifies(conversation[j], skipEmpty)
    decreases |conversation|
  {
    var n := |conversation|;
    if Qualifies(conversation[n - 1], skipEmpty) {
      i := n - 1;
    } else {
      var prefix := conversation[..n - 1];
      i := NewestAssistantIsNewest(prefix, skipEmpty);
      forall j | i < j < n
        ensures !Qualifies(conversation[j], skipEmpty)
      {
        if j < n - 1 {
          assert conversation[j] == prefix[j];
        }
      }
    }
  }

  /** Nothing is found only when no turn qualifies. */
  lemma {:induction false} NoAssistantQualifies(conversation: seq<Turn>, skipEmpty: bool)
    requires NewestAssistant(conversation, skipEmpty).None?
    ensures forall j :: 0 <= j < |conversation| ==> !Qualifies(conversation[j], skipEmpty)
    decreases |conversation|
  {
    var n := |conversation|;
    if n > 0 {
      var prefix := conversation[..n - 1];
      NoAssistantQualifies(prefix, skipEmpty);
      assert forall j :: 0 <= j < n - 1 ==> conversation[j] == prefix[j];
    }
  }

  /** The backward scan with an early exit that `generate()` runs. */
  method ScanExplanation(conversation: seq<Turn>, userQuery: string, expandedQuery: Option<string>) returns (s: Scan)
    ensures s == NewestExplanation(conversation, userQuery, expandedQuery)
  {
    var i := |conversation|;
    assert conversation[..i] == conversation;
    while i > 0
      invariant 0 <= i <= |conversation|
      invariant NewestExplanation(conversation[..i], userQuery, expandedQuery) == NewestExplanation(conversation, userQuery, expandedQuery)
    {
      var msg := conversation[i - 1];
      var verdict := TurnVerdict(msg, userQuery, expandedQuery);
      if verdict == Pass {
        return Found(msg.content);
      } else if verdict == Raise {
        return ScanRaised;
      }
      assert conversation[..i][..i - 1] == conversation[..i - 1];
      i := i - 1;
    }
    return NotFound;
  }

  /** The backward scan for the newest assistant text. */
  method ScanAssistant(conversation: seq<Turn>, skipEmpty: bool) returns (text: Option<string>)
    ensures text == NewestAssistant(conversation, skipEmpty)
  {
    var i := |conversation|;
    assert conversation[..i] == conversation;
    while i > 0
      invariant 0 <= i <= |conversation|
      invariant NewestAssistant(conversation[..i], skipEmpty) == NewestAssistant(conversation, skipEmpty)
    {
      var msg := conversation[i - 1];
      if msg.role == Assistant && (!skipEmpty || msg.content != "") {
        return Some(msg.content);
      }
      assert conversation[..i][..i - 1] == conversation[..i - 1];
      i := i - 1;
    }
    return None;
  }

  /** The row transform of the assembly, with the explanation fixed. */
  function Transform(explanation: string, d: Decoders, c: Coercions): Row -> Option<Parcel> {
    row => TransformRow(row, Some(explanation), d, c)
  }

  /** The parcel `transform` makes of one row, or nothing when it drops the row. */
  function KeptBy(row: Row, transform: Row -> Option<Parcel>): (ps: seq<Parcel>)
    ensures |ps| <= 1 && (|ps| == 1 <==> transform(row).Some?)
    ensures |ps| == 1 ==> ps[0] == transform(row).value
  {
    match transform(row)
    case Some(p) => [p]
    case None => []
  }

  /** The parcels of the rows `transform` accepts, in row order. */
  function Accepted(rows: seq<Row>, transform: Row -> Option<Parcel>): (ps: seq<Parcel>)
    ensures |ps| <= |rows|
    decreases |rows|
  {
    if |rows| == 0 then []
    else Accepted(rows[..|rows| - 1], transform) + KeptBy(rows[|rows| - 1], transform)
  }

  /** The parcels of the rows `transform_row_to_parcel` accepts. */
  function AcceptedParcels(rows: seq<Row>, explanation: string, d: Decoders, c: Coercions): seq<Parcel> {
    Accepted(rows, Transform(explanation, d, c))
  }

  /**
   * `idx` lists, strictly increasing, the indices of the rows `transform`
   * accepts, and `ps` holds their parcels in that order.
   */
  ghost predicate Origin(rows: seq<Row>, transform: Row -> Option<Parcel>, ps: seq<Parcel>, idx: seq<nat>) {
    && |idx| == |ps|
    && (forall k, l :: 0 <= k < l < |idx| ==> idx[k] < idx[l])
    && (forall k :: 0 <= k < |idx| ==> idx[k] < |rows| && transform(rows[idx[k]]) == Some(ps[k]))
    && (forall i :: 0 <= i < |rows| && transform(rows[i]).Some? ==> i in idx)
  }

  /** The accepted parcels are exactly the transforms of the accepted rows, in row order. */
  lemma {:induction false} AcceptedOrigin(rows: seq<Row>, transform: Row -> Option<Parcel>) returns (idx: seq<nat>)
    ensures Origin(rows, transform, Accepted(rows, transform), idx)
    decreases |rows|
  {
    if |rows| == 0 {
      idx := [];
    } else {
      var n := |rows|;
      var before := AcceptedOrigin(rows[..n - 1], transform);
      if transform(rows[n - 1]).Some? {
        idx := OriginKeep(rows, transform, Accepted(rows[..n - 1], transform), before);
      } else {
        OriginDrop(rows, transform, Accepted(rows[..n - 1], transform), before);
        idx := before;
      }
    }
  }

  lemma {:induction false} OriginKeep(rows: seq<Row>, transform: Row -> Option<Parcel>, ps: seq<Parcel>, before: seq<nat>)
    returns (idx: seq<nat>)
    requires |rows| > 0 && transform(rows[|rows| - 1]).Some?
    requires ps == Accepted(rows[..|rows| - 1], transform)
    requires Origin(rows[..|rows| - 1], transform, ps, before)
    ensures Origin(rows, transform, Accepted(rows, transform), idx)
  {
    var n := |rows|;
    var last := transform(rows[n - 1]).value;
    assert Accepted(rows, transform) == ps + [last];
    idx := before + [n - 1];
    IncreasingSnoc(before, n - 1);
    OriginKeepSound(rows, transform, ps, before, last);
    OriginKeepComplete(rows, transform, before);
  }

  lemma {:induction false} OriginKeepSound(rows: seq<Row>, transform: Row -> Option<Parcel>, ps: seq<Parcel>, before: seq<nat>, last: Parcel)
    requires |rows| > 0 && transform(rows[|rows| - 1]) == Some(last)
    requires |before| == |ps|
    requires forall k :: 0 <= k < |before| ==> before[k] < |rows| - 1 && transform(rows[..|rows| - 1][before[k]]) == Some(ps[k])
    ensures forall k :: 0 <= k < |before| + 1 ==>
              (before + [|rows| - 1])[k] < |rows| && transform(rows[(before + [|rows| - 1])[k]]) == Some((ps + [last])[k])
  {
    var n := |rows|;
    var idx := before + [n - 1];
    forall k | 0 <= k < |idx|
      ensures idx[k] < n && transform(rows[idx[k]]) == Some((ps + [last])[k])
    {
      if k < |before| {
        assert idx[k] == before[k];
        assert rows[..n - 1][before[k]] == rows[before[k]];
      }
    }
  }

  lemma {:induction false} OriginKeepComplete(rows: seq<Row>, transform: Row -> Option<Parcel>, before: seq<nat>)
    requires |rows| > 0
    requires forall i :: 0 <= i < |rows| - 1 && transform(rows[..|rows| - 1][i]).Some? ==> i in before
    ensures forall i :: 0 <= i < |rows| && transform(rows[i]).Some? ==> i in before + [|rows| - 1]
  {
    var n := |rows|;
    forall i | 0 <= i < n && transform(rows[i]).Some?
      ensures i in before + [n - 1]
    {
      if i < n - 1 {
        assert rows[..n - 1][i] == rows[i];
        assert i in before;
      } else {
        assert (before + [n - 1])[|before|] == i;
      }
    }
  }

  lemma {:induction false} OriginDrop(rows: seq<Row>, transform: Row -> Option<Parcel>, ps: seq<Parcel>, before: seq<nat>)
    requires |rows| > 0 && transform(rows[|rows| - 1]).None?
    requires ps == Accepted(rows[..|rows| - 1], transform)
    requires Origin(rows[..|rows| - 1], transform, ps, before)
    ensures Origin(rows, transform, Accepted(rows, transform), before)
  {
    var n := |rows|;
    assert Accepted(rows, transform) == ps;
    forall k | 0 <= k < |before|
      ensures transform(rows[before[k]]) == Some(ps[k])
    {
      assert rows[..n - 1][before[k]] == rows[before[k]];
    }
    forall i | 0 <= i < n && transform(rows[i]).Some?
      ensures i in before
    {
      assert i < n - 1;
      assert rows[..n - 1][i] == rows[i];
    }
  }

  /** Every parcel of the response carries a GeoJSON geometry and the response's explanation. */
  lemma {:induction false} AcceptedParcelsAreGeoJson(rows: seq<Row>, explanation: string, d: Decoders, c: Coercions)
    ensures var ps := AcceptedParcels(rows, explanation, d, c);
            forall k :: 0 <= k < |ps| ==> IsGeoJsonDict(ps[k].geometry) && ps[k].explanation == ExplanationText(Some(explanation))
  {
    var t := Transform(explanation, d, c);
    var idx := AcceptedOrigin(rows, t);
    forall k | 0 <= k < |Accepted(rows, t)|
      ensures IsGeoJsonDict(Accepted(rows, t)[k].geometry) && Accepted(rows, t)[k].explanation == ExplanationText(Some(explanation))
    {
      assert TransformRow(rows[idx[k]], Some(explanation), d, c) == Some(Accepted(rows, t)[k]);
    }
  }

  /** Accepting rows distributes over concatenation: each row is judged on its own. */
  lemma {:induction false} AcceptedAppend(a: seq<Row>, b: seq<Row>, transform: Row -> Option<Parcel>)
    ensures Accepted(a + b, transform) == Accepted(a, transform) + Accepted(b, transform)
    decreases |b|
  {
    if |b| == 0 {
      assert a + b == a;
    } else {
      var b' := b[..|b| - 1];
      var last := b[|b| - 1];
      assert (a + b)[..|a + b| - 1] == a + b';
      assert (a + b)[|a + b| - 1] == last;
      calc {
        Accepted(a + b, transform);
        Accepted(a + b', transform) + KeptBy(last, transform);
        { AcceptedAppend(a, b', transform); }
        Accepted(a, transform) + Accepted(b', transform) + KeptBy(last, transform);
        Accepted(a, transform) + Accepted(b, transform);
      }
    }
  }

  /** When every row transforms, every row yields a parcel. */
  lemma {:induction false} AllAcceptedKeepsCount(rows: seq<Row>, transform: Row -> Option<Parcel>)
    requires forall k :: 0 <= k < |rows| ==> transform(rows[k]).Some?
    ensures |Accepted(rows, transform)| == |rows|
    decreases |rows|
  {
    if |rows| > 0 {
      var prefix := rows[..|rows| - 1];
      assert forall k :: 0 <= k < |prefix| ==> prefix[k] == rows[k];
      AllAcceptedKeepsCount(prefix, transform);
    }
  }

  /**
   * The loop that appends every accepted parcel; the assemblers pass
   * `Transform(explanation, d, c)` as `transform`.
   */
  method CollectParcels(rows: seq<Row>, transform: Row -> Option<Parcel>) returns (parcels: seq<Parcel>)
    ensures parcels == Accepted(rows, transform)
  {
    parcels := [];
    var i := 0;
    while i < |rows|
      invariant 0 <= i <= |rows|
      invariant parcels == Accepted(rows[..i], transform)
    {
      var parcel := transform(rows[i]);
      assert rows[..i + 1][..i] == rows[..i];
      assert Accepted(rows[..i + 1], transform) == parcels + KeptBy(rows[i], transform);
      if parcel.Some? {
        parcels := parcels + [parcel.value];
      }
      i := i + 1;
    }
    assert rows[..i] == rows;
  }

  /** The count sentence. */
  function CountSentence(n: nat): string {
    if n == 0 then NoParcelsSentence
    else "Found " + NatToString(n) + " parcel" + (if n != 1 then "s" else "") + " matching your criteria."
  }

  /** The parcel count can be read back from a non-empty count sentence, and only one parcel reads as singular. */
  lemma {:induction false} CountSentenceRoundTrip(n: nat)
    requires n > 0
    ensures var s := CountSentence(n);
            var k := |NatToString(n)|;
            6 + k + 8 <= |s| && DecimalValue(s[6..6 + k]) == n
            && s[6 + k..6 + k + 7] == " parcel" && (s[6 + k + 7] == 's' <==> n != 1)
  {
    var digits := NatToString(n);
    var s := CountSentence(n);
    var tail := (if n != 1 then "s" else "") + " matching your criteria.";
    assert s == "Found " + digits + " parcel" + tail;
    assert s[6..6 + |digits|] == digits;
    assert s[6 + |digits|..6 + |digits| + 7] == " parcel";
    assert s[6 + |digits| + 7] == tail[0];
    DecimalRoundTrip(n);
  }

  /** The appended explanation: a space and the text, or nothing for an empty text. */
  function ExplanationSuffix(explanation: string): string {
    if explanation != "" then " " + explanation else ""
  }

  /** The appended warning: a blank line and the warning, or nothing without one. */
  function WarningSuffix(warning: Option<string>): string {
    if TruthyText(warning) then "\n\n" + warning.value else ""
  }

  /** The summary: count sentence, then the explanation, then the unmatched-conditions warning after a blank line;
   * the count sentence is never empty, so the source's `summary = unmatched_warning` branch is dead. */
  function SummaryText(n: nat, explanation: string, warning: Option<string>): (s: string)
    ensures StartsWith(s, CountSentence(n))
  {
    var tail := ExplanationSuffix(explanation) + WarningSuffix(warning);
    assert (CountSentence(n) + tail)[..|CountSentence(n)|] == CountSentence(n);
    CountSentence(n) + ExplanationSuffix(explanation) + WarningSuffix(warning)
  }

  /** Builds the summary text piece by piece, as both endpoints do. */
  method Summarize(n: nat, explanation: string, warning: Option<string>) returns (summary: string)
    ensures summary == SummaryText(n, explanation, warning)
  {
    if n > 0 {
      summary := CountSentence(n);
    } else {
      summary := NoParcelsSentence;
    }
    if explanation != "" {
      summary := summary + (" " + explanation);
    }
    assert summary == CountSentence(n) + ExplanationSuffix(explanation);
    if TruthyText(warning) {
      summary := summary + ("\n\n" + warning.value);
    }
  }

  /** The response: a result event or body, or a failure (an error event, or HTTP 500). */
  datatype Response = Result(parcels: seq<Parcel>, summary: string, sql: Option<string>, sessionId: string) | Failed

  /** The final state the streaming endpoint reads. */
  datatype StreamFinal = StreamFinal(
    sqlQuery: Option<string>,
    results: Option<seq<Row>>,
    error: Option<string>,
    vagueConditions: seq<Value>,
    unmatchedWarning: Option<string>,
    userQuery: string,
    expandedQuery: Option<string>,
    conversation: seq<Turn>)

  function ExplanationOf(s: Scan): string {
    if s.Found? then s.text else ""
  }

  /**
   * The result part of `generate()`: vague conditions first, then an
   * error, then the parcels and the summary; a raising echo test fails
   * the whole response.
   */
  method AssembleStream(f: StreamFinal, sessionId: string, d: Decoders, c: Coercions) returns (r: Response)
    ensures |f.vagueConditions| > 0 ==>
              r == Result([], NewestAssistant(f.conversation, true).GetOr(VagueFallback), None, sessionId)
    ensures |f.vagueConditions| == 0 && TruthyText(f.error) ==>
              r == Result([], ErrorPrefix + f.error.value, f.sqlQuery, sessionId)
    ensures |f.vagueConditions| == 0 && !TruthyText(f.error) ==>
              (r.Failed? <==> NewestExplanation(f.conversation, f.userQuery, f.expandedQuery).ScanRaised?)
    ensures |f.vagueConditions| == 0 && !TruthyText(f.error) && r.Result? ==>
              var explanation := ExplanationOf(NewestExplanation(f.conversation, f.userQuery, f.expandedQuery));
              var parcels := AcceptedParcels(f.results.GetOr([]), explanation, d, c);
              r == Result(parcels, SummaryText(|parcels|, explanation, f.unmatchedWarning), f.sqlQuery, sessionId)
  {
    if |f.vagueConditions| > 0 {
      var text := ScanAssistant(f.conversation, true);
      var explanation := if text.Some? then text.value else "";
      return Result([], if explanation != "" then explanation else VagueFallback, None, sessionId);
    }
    if TruthyText(f.error) {
      return Result([], ErrorPrefix + f.error.value, f.sqlQuery, sessionId);
    }
    var results := if f.results.None? then [] else f.results.value;
    var scan := ScanExplanation(f.conversation, f.userQuery, f.expandedQuery);
    if scan.ScanRaised? {
      return Failed;
    }
    var explanation := if scan.Found? then scan.text else "";
    var parcels := CollectParcels(results, Transform(explanation, d, c));
    var shown := "";
    if explanation != "" {
      ExplanationPassesAgain(f.conversation, f.userQuery, f.expandedQuery);
      if EchoCheck(explanation, f.userQuery, f.expandedQuery) == Pass {
        shown := explanation;
      }
    }
    assert shown == explanation;
    var summary := Summarize(|parcels|, shown, f.unmatchedWarning);
    return Result(parcels, summary, f.sqlQuery, sessionId);
  }

  /** The final state the plain search endpoint reads. */
  datatype SearchFinal = SearchFinal(sqlQuery: Option<string>, results: Option<seq<Row>>, error: Option<string>, conversation: seq<Turn>)

  /**
   * `search_parcels` after the graph ran: an error answers with the
   * error, missing rows fail the request, otherwise the parcels and the
   * summary with the newest assistant text.
   */
  method AssembleSearch(f: SearchFinal, sessionId: string, d: Decoders, c: Coercions) returns (r: Response)
    ensures TruthyText(f.error) ==> r == Result([], ErrorPrefix + f.error.value, f.sqlQuery, sessionId)
    ensures !TruthyText(f.error) ==> (r.Failed? <==> f.results.None?)
    ensures !TruthyText(f.error) && f.results.Some? ==>
              var explanation := NewestAssistant(f.conversation, false).GetOr("");
              var parcels := AcceptedParcels(f.results.value, explanation, d, c);
              r == Result(parcels, SummaryText(|parcels|, explanation, None), f.sqlQuery, sessionId)
  {
    if TruthyText(f.error) {
      return Result([], ErrorPrefix + f.error.value, f.sqlQuery, sessionId);
    }
    var text := ScanAssistant(f.conversation, false);
    var explanation := if text.Some? then text.value else "";
    if f.results.None? {
      return Failed;
    }
    var parcels := CollectParcels(f.results.value, Transform(explanation, d, c));
    var summary := Summarize(|parcels|, explanation, None);
    assert explanation == NewestAssistant(f.conversation, false).GetOr("");
    return Result(parcels, summary, f.sqlQuery, sessionId);
  }
}
