# Solar site selector: agent, response assembly and map conversion

The solar site selector answers plain-English questions about land parcels.
It does this in three steps:

- A language model turns the question into PostGIS SQL.
- A LangGraph state machine runs that SQL and repairs it when it fails.
- An API server turns the result rows into parcel records and a summary sentence.

A React map then draws each parcel's geometry.

This project is a Dafny model of the deterministic code around the model calls. Files:

- `wrappers.dfy`: `Option`.
- `strings.dfy`: the Python string operations the agents use.
  - Stripping uses Python's whitespace set.
  - The case-insensitive search is the `(?i)` split.
  - Also: fence deletion, `join`, and decimal rendering of counts.
- `values.dfy`: Python values as a datatype (`PyValues`).
  - Truthiness, `dict.get`, `a or b` and `float()`.
  - The `json.loads(json.dumps(x))` copy.
  - The GeoJSON dict test: a dict with both `type` and `coordinates`.
- `messages.dfy`: conversation turns.
- `schema_text.dfy`: `get_all_tables_schema`, the schema text both agents put into their SQL prompt.
- `clean_sql.dfy`: `clean_sql` of the current agent.
- `db_utils.dfy`: `run_query`'s row post-processing.
- `backend_agent.dfy`: the current agent.
  - Its state and the channel-merge discipline.
  - Every node and router.
  - The clarification message of `resolve_vague_conditions`.
  - `SqlGraph`, a class with one method for one node step and one for a whole run.
- `legacy_agent.dfy`: the earlier agent.
  - Duplicate-id detection.
  - Issue classification.
  - The VALID:/FIX: reply parser.
  - Its router.
  - `LegacyGraph`, a class that runs it.
- `geometry.dfy`: `convert_geometry_to_geojson`.
- `parcels.dfy`: `transform_row_to_parcel`.
- `indices.dfy`: three shared lemmas about positions in sequences. `IncreasingSnoc` says that appending an index above all the others keeps an index list strictly increasing. `AppendIndex` and `AppendIndexFront` say that indexing into `head + tail` past or within `head` gives the element of `tail` or of `head`.
- `assembly.dfy`: the result assembly of the streaming endpoint (`backend/api_server.py`) and the plain search endpoint (`api_server.py`).
  - Session id.
  - Explanation scan.
  - Parcel collection.
  - Summary.
- `map_view.dfy`: `geoJsonToLeaflet`, the bounds collection of `MapUpdater`, the selected-parcel centre, and `parcelPolygons`.

Everything the code cannot see is a function-valued parameter. A `Collaborators` record bundles these for one run. They are:

- the four language-model calls;
- the database;
- the WKB, shapely and `json.loads` decoders (`Decoders`);
- Python's `float()` (`Coercions`);
- the fresh UUID.

Each operation is modelled as follows:

- **Loops become methods.** Each source loop that builds a list or a string is a `method`, proved equal to a specification function:
  - the schema loops;
  - `clean_sql`'s reassignments;
  - `run_query`'s row loop;
  - the reversed-conversation scans;
  - `parcels.append`;
  - `summary +=`;
  - `allCoordinates.push`;
  - `polygons.push`.
- **Graph runs are classes.** A graph run is a class whose `Step` executes one node and whose `Run` loops until the graph ends. A ghost predicate about the reachable states carries the termination and retry bounds.

## Model

| member | source | states |
|---|---|---|
| SchemaText.ColumnLine | sql_agent.py:52-56 | a column line begins with "  - name: type, comments: c" and carries the " (NOT NULL)" mark exactly when `nullable` is `False`; otherwise it is exactly that head |
| SchemaText.BlocksPerTable | sql_agent.py:43-59 | the schema text has one block per table of the listed schemas |
| SchemaText.BlockAt | sql_agent.py:43-59 | the block of the k-th table of the i-th schema comes right after the blocks of all tables of the earlier schemas, so blocks run in schema order and then table order |
| SchemaText.SchemaTextEmptyIffNoTables | backend/sql_agent.py:104-106 | the joined schema text is empty exactly when no listed schema has a table |
| SchemaText.DescribeColumns | backend/sql_agent.py:96-101 | the inner loop builds one line per column, in column order |
| SchemaText.DescribeTables | backend/sql_agent.py:93-104 | the table loop appends one "Table: schema.table" block per table, in order, after the blocks already built |
| SchemaText.RenderSchema | backend/sql_agent.py:84-106 | the whole loop nest yields the blocks of all tables of all schemas joined by blank lines |
| Strings.Strip | backend/sql_agent.py:119 | the stripped text is the input minus leading and trailing whitespace; it neither starts nor ends with whitespace |
| Strings.StripOfTrimmed | backend/sql_agent.py:130 | stripping text that is already trimmed changes nothing |
| Strings.NoFenceAfterDeletion | backend/sql_agent.py:117-118 | after every "```" is deleted, no fence remains |
| Strings.FindCI | backend/sql_agent.py:124 | the case-insensitive search returns the first position where the label matches, and none when it matches nowhere |
| Strings.LiteralFoundCI | backend/sql_agent.py:122-124 | when a literal spelling such as "sql:" occurs, the case-insensitive split finds a label |
| Strings.DecimalRoundTrip | backend/api_server.py:399 | the decimal rendering of a count reads back as that count |
| Strings.JoinEmptyIffNoParts | sql_agent.py:61 | joining non-empty parts is empty exactly when there are no parts |
| SqlCleaning.Unfenced | backend/sql_agent.py:117-119 | removing both fences and stripping leaves trimmed text with no fence |
| SqlCleaning.LabelFound | backend/sql_agent.py:122-124 | the "SQL:"/"sql:" literal test implies that the case-insensitive split on "SQL:" has a second part |
| SqlCleaning.AfterLabel | backend/sql_agent.py:124-125 | the part after the split is the suffix of the text after the first case-insensitive "SQL:" |
| SqlCleaning.CutBeforeExplanation | backend/sql_agent.py:127-128 | the part before the first case-insensitive "Explanation:" is a prefix of the text that contains neither literal spelling |
| SqlCleaning.LabelledPart | backend/sql_agent.py:125-128 | the kept slice starts at the first non-blank after the first case-insensitive "SQL:"; it ends at the first case-insensitive "Explanation:" from there when a literal spelling occurs there, otherwise at the end; it holds no Explanation label |
| SqlCleaning.Cleaned | backend/sql_agent.py:111-130 | empty input gives ""; the result is trimmed and fence-free; with no literal "SQL:"/"sql:" it is the unfenced text, Explanation included; with one, no Explanation label is left |
| SqlCleaning.CleanedLabelledSlice | backend/sql_agent.py:125-130 | a labelled reply is cleaned to exactly the stripped slice that `LabelledPart` locates in the unfenced text |
| SqlCleaning.CleanSql | backend/sql_agent.py:111-130 | the step-by-step cleaner returns `Cleaned(raw)`; for a labelled reply that is the stripped part after the label, cut before the explanation |
| DbUtils.ConvertRow | backend/db_actions/db_utils.py:14-28 | the same keys; every column but geometry is unchanged; a missing, None or string geometry leaves the row unchanged; otherwise the geometry is the converted value, or the original when conversion fails |
| DbUtils.ConvertedRows | backend/db_actions/db_utils.py:12-29 | the same number of rows, in order, each converted by the row rule |
| DbUtils.ConvertRowKeepsJson | backend/db_actions/db_utils.py:25 | converting a row whose geometry is already a JSON GeoJSON dict with the JSON copy leaves the row unchanged |
| DbUtils.RunQuery | backend/db_actions/db_utils.py:6-35 | exactly one of rows and error is present; a raising driver gives (None, message); a successful one gives the converted rows |
| PyValues.Or | backend/api_server.py:181 | `a or b` is `a` when `a` is truthy and `b` otherwise |
| PyValues.JsonCopyCanonical | backend/api_server.py:114 | a successful JSON round-trip copy is JSON, and copying a JSON value returns it unchanged |
| PyValues.CopyKeepsKeys | backend/api_server.py:112-114 | the copy of a dict keeps its keys, so a GeoJSON dict stays a GeoJSON dict |
| Geometry.Try | backend/api_server.py:137-139 | a decoder's output is returned exactly when it is a GeoJSON dict that the JSON copy accepts, and the result is a JSON GeoJSON dict |
| Geometry.FromText | backend/api_server.py:118-148 | a decoded string is always a JSON GeoJSON dict |
| Geometry.FromObject | backend/api_server.py:151-173 | decoding an object never raises, and any result is a JSON GeoJSON dict |
| Geometry.ConvertGeometry | backend/api_server.py:105-175 | None gives nothing; a dict without both keys gives nothing; a GeoJSON dict gives its copy; a blank string gives nothing; only a dict copy can raise; every result is a JSON GeoJSON dict |
| Geometry.ConvertIdempotent | backend/api_server.py:111-114 | converting a converted geometry again gives the same geometry, whatever the decoders |
| Geometry.ShortTextSkipsWkb | backend/api_server.py:132 | for text of at most 20 characters after stripping, the WKB decoders are never consulted |
| Geometry.GeoJsonTextFirst | backend/api_server.py:124-127 | a string that parses as a GeoJSON dict gives that dict's copy, before any WKB attempt |
| Parcels.FloatOrZero | backend/api_server.py:186-195 | None and unparsable values become 0.0; parsable ones keep their value |
| Parcels.ExplanationText | backend/api_server.py:214 | the explanation is never empty and defaults to "Found parcel matching your criteria" |
| Parcels.TransformRow | backend/api_server.py:178-218 | a row is kept exactly when its acreage parses, its geometry is present and converts, and its text fields are valid; a kept parcel has the converted geometry, the validated address, county, municipality and owner (each from its column fallbacks), the parsed numbers and the default explanation |
| Parcels.ObjectAcreageKept | backend/api_server.py:183 | a row whose acreage is a truthy foreign object that `float()` converts (a non-zero `Decimal`) is kept, with the converted acreage |
| Parcels.WellFormedRowKept | backend/api_server.py:178-216 | a row with non-empty text fields, a numeric acreage and a JSON GeoJSON geometry is kept with that geometry unchanged |
| BackendAgent.Merge | backend/sql_agent.py:62-81 | the conversation channel appends the update's turns; every other channel keeps its value unless the update writes it; an empty update changes nothing |
| BackendAgent.BeginTurn | backend/api_server.py:253-262 | a new turn resets the query fields and the attempt counter and keeps the saved conversation |
| BackendAgent.TopicFilterUpdate | backend/sql_agent.py:133-152 | a missing or falsy verdict marks the question off-topic and sets the error to the reply's message or the fixed refusal; a relevant verdict changes only the topic flag |
| BackendAgent.ContextualUpdate | backend/sql_agent.py:154-179 | the stripped rewrite becomes the expanded query, and exactly two turns are appended: the user's question, then the rewrite |
| BackendAgent.ValidateUpdate | backend/sql_agent.py:282-330 | the error is set, to the zero-results message with the SQL remembered, exactly when results are missing or empty; otherwise it is cleared |
| BackendAgent.DisplayUpdate | backend/sql_agent.py:361-378 | with no error nothing changes; with one, the last turn afterwards carries the error; nothing is added when the last turn already says it; an added turn is exactly `Turn(Assistant, error)` |
| BackendAgent.DisplayIdempotent | backend/sql_agent.py:367-369 | displaying a second time changes nothing, so the error is never recorded twice |
| BackendAgent.RouteAfterTopicFilter | backend/sql_agent.py:396-402 | only a topic flag of exactly `False` goes to display_results; anything else goes on to query understanding |
| BackendAgent.RouteAfterValidate | backend/sql_agent.py:420-428 | repair_sql is chosen exactly when an error is set and fewer than 3 attempts were made; otherwise display_results |
| BackendAgent.ClarificationLines | backend/sql_agent.py:228-236 | the clarification has the header, one interpretation line per vague condition in order, then the closing question |
| BackendAgent.ClarificationOpensWithHeader | backend/sql_agent.py:228-236 | the joined clarification message starts with its header |
| BackendAgent.ResolveVagueConditions | backend/sql_agent.py:181-244 | with no vague conditions it records the no-vague message; otherwise it records the joined clarification as one assistant turn |
| BackendAgent.FixedSql | backend/sql_agent.py:353-357 | the repaired SQL is `Cleaned` of the stripped repair reply for the failed SQL and its error: trimmed, fence-free, and the unfenced reply when it has no SQL label |
| BackendAgent.SqlGraph.constructor | backend/api_server.py:253-262 | a run starts at topic_filter with the reset turn state and no execution yet |
| BackendAgent.SqlGraph.Step | backend/sql_agent.py:382-440 | each node's state change and successor as the graph edges fix them; generation stores `Cleaned` of the model's SQL; a repair stores `Cleaned` of the stripped repair reply; only execute_sql counts an execution |
| BackendAgent.SqlGraph.Run | backend/sql_agent.py:413-440 | the run reaches the end with at most 3 attempts and at most attempts+1 executions; the conversation only grows, by at most 3 turns; an on-topic run ends with rows and no error or with the zero-results error after 3 attempts; a database that never returns rows uses all 3 repairs (more below) |
| BackendAgent.StepKeeps | backend/sql_agent.py:382-440 | every step keeps the reachable-state invariant, and repair adds one attempt without exceeding 3 |
| BackendAgent.RunEnds | backend/sql_agent.py:413-440 | every state the finished graph can be in satisfies the run properties listed below |
| LegacyAgent.ParcelIds | sql_agent.py:411-412 | the collected ids are truthy and include every row's truthy `parcel_id` |
| LegacyAgent.ParcelIdsOrigin | sql_agent.py:411-412 | the ids are exactly those of the rows with a truthy id, each row's once, in row order |
| LegacyAgent.RepeatedIdInRows | sql_agent.py:409-413 | two equal entries of the id list are exactly two rows, in order, with the same truthy id |
| LegacyAgent.SetSizeIffDistinct | sql_agent.py:413 | the id set is never larger than the id list, and equally large exactly when no id repeats |
| LegacyAgent.DuplicatesIffRepeatedId | sql_agent.py:409-413 | duplicates are reported exactly when there is more than one row and some truthy id occurs twice, stated over the id list and over the rows themselves |
| LegacyAgent.ClassifyIssue | sql_agent.py:303-311 | zero rows is "zero"; more rows than a known non-zero parcel count is "too_many"; anything else is no issue |
| LegacyAgent.NeedsValidationIffIssue | sql_agent.py:419-427 | the router's suspicious-count test holds exactly when validation classifies an issue |
| LegacyAgent.FixSql | sql_agent.py:364-372 | the FIX: reply's SQL is trimmed and contains no fence |
| LegacyAgent.VerdictOf | sql_agent.py:359-385 | a reply accepts exactly when it starts with VALID:, or starts with neither VALID: nor FIX: and does not look like SQL; a replacement is trimmed and fence-free |
| LegacyAgent.ParseVerdict | sql_agent.py:359-385 | the step-by-step parse gives `VerdictOf(response)`: VALID: accepts; otherwise FIX: replaces with the FIX-cleaned text; otherwise SQL-looking text replaces with the unfenced reply; anything else accepts |
| LegacyAgent.RepairPromptFor | sql_agent.py:201-291 | the duplicate prompt, with its diagnosis, is built exactly when there is no error and the rows repeat an id; otherwise the error prompt passes the error on |
| LegacyAgent.RouteAfterExecute | sql_agent.py:398-429 | while attempts remain, an error or duplicate ids go to repair; a suspicious count not yet accepted goes to validation; everything else ends |
| LegacyAgent.RouteAfterValidate | sql_agent.py:443-450 | an accepted count ends the run; a replaced query is executed again |
| LegacyAgent.LegacyGraph.constructor | sql_agent.py:462 | a run starts at generate_sql with no execution yet |
| LegacyAgent.LegacyGraph.Validate | sql_agent.py:294-385 | one more attempt; no issue accepts with no model call; otherwise the verdict of the model's reply to the validation prompt decides: Accept sets `validated_empty_ok=True`, Replace(q) stores q with `validated_empty_ok=False` |
| LegacyAgent.LegacyGraph.Step | sql_agent.py:388-462 | each node's state change and successor; every node except execute_sql bumps `attempt`; validation's outcome follows the parsed verdict |
| LegacyAgent.LegacyGraph.Run | sql_agent.py:396-462 | the run reaches the end with at most 3 executions from attempt 0; an error, duplicate ids or an unaccepted suspicious count remain only once 3 attempts are used |
| ResultAssembly.SessionId | backend/api_server.py:249 | the supplied id when it is truthy, the fresh UUID otherwise |
| ResultAssembly.EchoCheckIsPrefixTest | backend/api_server.py:377-378 | the echo filter passes exactly when the text starts with neither the question nor the rewrite; with no rewrite it raises unless the question is a prefix |
| ResultAssembly.EmptyQueryNeverPasses | backend/api_server.py:378 | with an empty question no turn passes the echo filter |
| ResultAssembly.ExplanationIsNewestPassing | backend/api_server.py:359-380 | a found explanation is the content of a passing turn, and every newer turn fails the filter |
| ResultAssembly.NoExplanationAllFail | backend/api_server.py:359-380 | no explanation is found only when every turn fails the filter |
| ResultAssembly.ExplanationPassesAgain | backend/api_server.py:400-401 | the found explanation passes the summary's echo test again, so that test never raises |
| ResultAssembly.NewestAssistant | api_server.py:240-246 | any text returned is the content of an assistant turn of the conversation, non-empty when empty turns are skipped |
| ResultAssembly.NewestAssistantIsNewest | api_server.py:240-246 | the text found is that of a qualifying assistant turn with no qualifying turn after it |
| ResultAssembly.NoAssistantQualifies | api_server.py:240-246 | nothing is found only when no turn of the conversation qualifies |
| ResultAssembly.ScanExplanation | backend/api_server.py:359-380 | the newest-to-oldest loop with `break` finds the specified explanation |
| ResultAssembly.ScanAssistant | api_server.py:240-246 | the reverse loop finds the newest assistant turn |
| ResultAssembly.KeptBy | backend/api_server.py:393-395 | a row contributes one parcel exactly when the transform accepts it, and that parcel is the transform's |
| ResultAssembly.AcceptedOrigin | backend/api_server.py:383-395 | the parcels are exactly the transforms of the accepted rows, in row order, and no accepted row is missed |
| ResultAssembly.AcceptedParcelsAreGeoJson | backend/api_server.py:383-395 | every parcel of the response has a GeoJSON geometry and the response's explanation |
| ResultAssembly.AcceptedAppend | backend/api_server.py:383-395 | collecting from two batches of rows is collecting from each in turn |
| ResultAssembly.AllAcceptedKeepsCount | api_server.py:249-262 | when every row is accepted, the parcel count equals the row count |
| ResultAssembly.CollectParcels | backend/api_server.py:383-395 | the append loop yields the accepted parcels, never more than the rows |
| ResultAssembly.CountSentenceRoundTrip | backend/api_server.py:398-399 | the count reads back from "Found N parcel…", and the plural "s" appears exactly when N is not 1 |
| ResultAssembly.SummaryText | backend/api_server.py:397-414 | the summary starts with the count sentence, or with the no-parcels sentence for zero |
| ResultAssembly.Summarize | backend/api_server.py:397-414 | the step-by-step `summary +=` builds count sentence, explanation suffix and warning suffix |
| ResultAssembly.AssembleStream | backend/api_server.py:316-420 | vague conditions come before the error and give the newest assistant text or the fallback; an error gives "Error: …" and no parcels; otherwise the accepted parcels and the summary with the echo-filtered explanation and the warning |
| ResultAssembly.AssembleSearch | api_server.py:226-279 | an error gives "Error: …" with the SQL; missing rows fail the request; otherwise the accepted parcels and the summary with the newest assistant text, unfiltered |
| MapView.ConvertPoint | frontend/src/components/MapView.tsx:44-50 | a point is kept exactly when both components are finite numbers, as [lat, lng]; destructuring a non-iterable throws |
| MapView.ConvertPoints | frontend/src/components/MapView.tsx:44-51 | the ring converts unless a point throws, and never grows |
| MapView.ConvertPointsAppend | frontend/src/components/MapView.tsx:44-51 | converting two runs of points is converting each and concatenating, so order is kept |
| MapView.ValidRingSwapsEveryPoint | frontend/src/components/MapView.tsx:60-67 | a ring of valid points keeps every point, swapped to [lat, lng], in order |
| MapView.ConvertRings | frontend/src/components/MapView.tsx:59-68 | a polygon converts exactly when each ring does, with one ring out per ring in |
| MapView.ConvertPolygons | frontend/src/components/MapView.tsx:42-53 | a multipolygon converts exactly when every polygon is an array whose rings convert |
| MapView.ConvertPolygonsAppend | frontend/src/components/MapView.tsx:42-53 | flattening two runs of polygons concatenates their rings in order |
| MapView.SinglePolygonRings | frontend/src/components/MapView.tsx:42-43 | a multipolygon of one polygon gives that polygon's rings |
| MapView.GeoJsonToLeaflet | frontend/src/components/MapView.tsx:35-75 | empty input and non-arrays give []; three levels of nesting flatten the polygons; two levels convert the rings; any other shape or a throw gives [] |
| MapView.PolygonKeepsRingCount | frontend/src/components/MapView.tsx:57-69 | a polygon keeps its ring count |
| MapView.MultiPolygonConcatenates | frontend/src/components/MapView.tsx:40-54 | a multipolygon gives the concatenation of its polygons' rings, in order |
| MapView.Coordinates | frontend/src/components/MapView.tsx:93 | a parcel's coordinates are used only when both geometry and coordinates are truthy |
| MapView.RingBounds | frontend/src/components/MapView.tsx:97-105 | every collected point is in range and comes from the ring |
| MapView.RingBoundsComplete | frontend/src/components/MapView.tsx:101-102 | every in-range point of the ring is collected |
| MapView.BoundsPoints | frontend/src/components/MapView.tsx:90-111 | every point collected over all parcels has -90 ≤ lat ≤ 90 and -180 ≤ lng ≤ 180 |
| MapView.PushRing | frontend/src/components/MapView.tsx:97-105 | the ring loop pushes the in-range points after those already collected |
| MapView.PushRings | frontend/src/components/MapView.tsx:96-106 | the position loop pushes the in-range points of every ring, in order |
| MapView.CollectBounds | frontend/src/components/MapView.tsx:90-111 | the nested `forEach` loops collect exactly the specified bounds points |
| MapView.OverviewAction | frontend/src/components/MapView.tsx:81-140 | a selection leaves the view alone; no parcels sets the Massachusetts default view; otherwise the view fits the collected in-range points when there are any and is left alone when there are none |
| MapView.SelectedCenter | frontend/src/components/MapView.tsx:142-156 | there is a centre exactly when the converted first ring is non-empty, and it is that ring's first position |
| MapView.SelectedCenterIsFirstVertex | frontend/src/components/MapView.tsx:147-151 | the centre is the first point of the first ring, swapped to [lat, lng] |
| MapView.Key | frontend/src/components/MapView.tsx:234-237 | the key ends with "-" and the parcel's index |
| MapView.KeysDiffer | frontend/src/components/MapView.tsx:234-237 | keys of different indices differ, whatever the addresses |
| MapView.Entry | frontend/src/components/MapView.tsx:193-241 | a parcel gets a polygon exactly when it has coordinates converting to at least one ring whose first ring has at least 3 points |
| MapView.PolygonIndices | frontend/src/components/MapView.tsx:191-241 | the polygons are exactly the entries of the parcels that qualify, in parcel order |
| MapView.KeysUnique | frontend/src/components/MapView.tsx:234-237 | no two polygons share a key |
| MapView.AtMostOneSelected | frontend/src/components/MapView.tsx:240 | at most one polygon is drawn as selected |
| MapView.ParcelPolygons | frontend/src/components/MapView.tsx:170-254 | the `polygons.push` loop yields exactly the specified polygons |

**Run properties.** These are proved by `BackendAgent.SqlGraph.Run` and `BackendAgent.RunEnds` for the current graph:

- The run ends.
- The attempt count never passes 3.
- There are at most attempts+1 executions, so at most 4 from attempt 0.
- The conversation only grows, and by at most three turns.
- An off-topic run executes nothing.
- An on-topic run records the question and the rewrite.
- It ends either with rows and no error, or with the zero-results error after 3 attempts.
- A database that never returns rows uses all 3 repairs.
- An error still set survives as the last turn.

`LegacyAgent.LegacyGraph.Run` proves the following for the earlier graph:

- The run ends.
- Every node but execute bumps `attempt`.
- From attempt 0 it makes at most 3 executions.
- It stops with an error, duplicates or an unaccepted suspicious count only once 3 attempts are used.

## Left out

- Model calls are function parameters. This covers `llm.invoke` and the prompt chains. The prompt templates are not modelled.
- Failing model replies are not modelled. A topic reply that `JsonOutputParser` cannot parse, or one that parses to a non-dict so that `data.get` raises (backend/sql_agent.py:139-142), aborts the run; the stream then sends an error event. The model's topic reply is always a parsed dict.
- The database is a function parameter. Engines, `inspect`, `con.execute` and the environment configuration are not modelled; column metadata and rows are inputs. `print` and logging are left out.
- Foreign geometry libraries are decoder parameters that return a dict or nothing. This covers shapely, GeoAlchemy, `to_shape`, `wkb.loads`, `mapping` and `__geo_interface__`. Python's `float()` of text, bytes or a foreign object is a parse-to-option parameter, and floats are an abstract `Float`. The parameter decides whether a driver object such as the `Decimal` of a NUMERIC column converts (it has `__float__`) or raises `TypeError` (a PostGIS element).
- Streaming is not modelled: `astream_events`/`astream` merging with the re-invoke fallback (backend/api_server.py:264-314), `asyncio.sleep` and SSE framing. The assembler starts from the final state.
- Timeouts are not modelled: the thread-pool 60-second timeout and its HTTP 504.
- LangGraph's `MemorySaver` keeps per-session memory. That memory is the `saved` state handed to `BeginTurn`.
- HTTP plumbing is not modelled: routes, CORS, middleware, exception handlers, health and test endpoints, and the Vercel wrappers.
- The legacy `__main__` block (sql_agent.py:471-484) is not modelled. It reads `parcel_count` from the database and prints.
- Status events and step names shown while the graph streams are not modelled.
- The frontend components other than `MapView.tsx` are not modelled. Within it, only the logic is modelled:
  - The Leaflet calls become the `ViewAction` datatype.
  - fitBounds padding, `maxZoom` and animation are left out, and so are the 300 ms timeout and console output.
  - The `parseFloat(String(pos))` fallback is not needed: converted positions are always numbers.
  - Numbers are finite or NaN. Python's `json.dumps` writes an infinite float as `Infinity`, which `JSON.parse` rejects, so this backend cannot send one. A literal such as `1e400` would parse to `Infinity` and pass `isNaN`; the model does not cover that case.
- `conversation` merges through LangGraph's `add_messages`. It is modelled as appending the new turns.
  - `add_messages` matches messages by id, turns dicts into message objects, and treats a re-sent list as already present.
  - `display_results` then calls `.get` on the last turn. What that does on a message object depends on the library, so the model treats turns as records with a role and content.
- `clean_sql(None)` is not modelled. Every caller passes a string, and `Strip` of the reply comes first.
- `resolve_vague_conditions` is modelled on its own but is not an edge of the graph, matching backend/sql_agent.py:384 and 413.
  - The backend state has no `vague_conditions` or `unmatched_conditions_warning` channel, so the live graph hands the assembler `[]` and `None`.
  - `ResultAssembly.AssembleStream` is modelled on those fields as inputs, because the assembler reads them.
- The legacy nodes read the schema text through the `tables` collaborator; `LegacyGraph` does not re-derive it.
- LegacyAgent.LegacyGraph.Validate: requires rows to be present. `len(None)` would raise, and the router reaches validation only with rows.
- Python's cross-type equality in the legacy id set is not modelled. `True == 1` is one example. Unhashable ids also make `set()` raise. Ids are compared as model values.
- LegacyAgent.ParseVerdict: `LooksLikeSql` upper-cases ASCII letters only. Python's `upper()` is full Unicode, so "ſelect" becomes "SELECT" in the source but not in the model; `VerdictOf` shares this gap.
- The root server (api_server.py:9 and 206-215) invokes the legacy graph with a current-agent state that has no `question` key. The legacy nodes read `state["question"]` (sql_agent.py:183), so that endpoint looks likely to fail. The model treats the two as separate and does not connect them.
- Strings.FindCI: this and the `(?i)` split fold ASCII letters only. Python's full Unicode case mapping is not modelled.
- MapView.AtMostOneSelected: identifies the selected parcel by its index. The source compares object identity (`selectedParcel === parcel`), so one object listed twice would be drawn selected twice; the model does not capture that.
- MapView.GeoJsonToLeaflet: requires non-null coordinates. Every caller checks `parcel.geometry.coordinates` first.
- `transform_row_to_parcel` and `convert_geometry_to_geojson` are the same in both API servers (backend/api_server.py:105-218 and api_server.py:83-196). The model follows the backend copy.
- `validate_sql` replaces a driver error with the zero-results message, because execution leaves `results` as `None`. The model keeps this behaviour (see `BackendAgent.ValidateUpdate`).
