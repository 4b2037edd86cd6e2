/** The batch driver (`main`): for each of the first ten CSV records it asks
    the service about the alumnus and appends one row to `update_data`, a
    full row or an error row; the table's columns are then reordered so
    that the token columns come last. */
module BatchDriver {
  import opened Wrappers
  import opened Text
  import opened AgentUtils
  import opened OutputSchema
  import opened AgentFactory
  import opened AdkService

  const UserId := "Pouria"
  const AgentMode := "alumni_researcher"

  /** `initial_data.head(10)`. */
  const MaxRecords := 10

  /** A value pandas read from the CSV: a string, an integer, or a missing
      value (NaN, a float). */
  datatype Cell = Str(s: string) | Int(i: int) | Nan

  type InputRow = map<string, Cell>

  /** A dict of `update_data`: its keys and values in insertion order. */
  type OutputRow = seq<(string, Cell)>

  /** How a cell prints in an f-string. */
  function CellText(c: Cell): string {
    match c
    case Str(s) => s
    case Int(i) => IntToString(i)
    case Nan => "nan"
  }

  /** The Python type name of a cell's value. */
  function TypeName(c: Cell): string {
    match c
    case Str(_) => "str"
    case Int(_) => "int"
    case Nan => "float"
  }

  /** `row[key]`; a missing key raises KeyError, whose text is the quoted key. */
  function Lookup(row: InputRow, key: string): Result<Cell, string> {
    if key in row then Success(row[key]) else Failure("'" + key + "'")
  }

  /** `row["First Name"] + " " + row["Last Name"]`, evaluated left to right:
      a KeyError, or the TypeError of `+` on a value that is not a string. */
  function AlumniName(row: InputRow): Result<string, string> {
    match Lookup(row, "First Name")
    case Failure(e) => Failure(e)
    case Success(first) =>
      if !first.Str? then Failure("unsupported operand type(s) for +: '" + TypeName(first) + "' and 'str'")
      else
        match Lookup(row, "Last Name")
        case Failure(e) => Failure(e)
        case Success(last) =>
          if !last.Str? then Failure("can only concatenate str (not \"" + TypeName(last) + "\") to str")
          else Success(first.s + " " + last.s)
  }

  /** Both lookups of a record succeed: two string names and an entry year. */
  predicate LookupsSucceed(row: InputRow) {
    AlumniName(row).Success? && "Entry Year" in row
  }

  /** The query sent to the agent for one alumnus. */
  function Query(alumniName: string, yearOfEntry: Cell): string {
    "alumni name: " + alumniName + ", year of entry: " + CellText(yearOfEntry)
  }

  const NoneResponseMessage := "Agent returned None response"

  /** The columns of a row built from a response, in their order. */
  const ResponseColumns: seq<string> := [
    "Current Practices Names", "Current Practices URLs", "Current Practice Narrative",
    "Additional Information", "X (Twitter) Link", "LinkedIn Link", "Doximity Link",
    "Google Scholar Link", "Facebook Link"
  ]

  const TokenColumns: seq<string> := [
    "Total tokens used", "Prompt tokens used", "Candidates tokens used",
    "Cached content tokens used", "Thoughts tokens used"
  ]

  const FullColumns: seq<string> := ["Name", "Year of Entry to Yale"] + ResponseColumns + TokenColumns

  const ErrorColumns: seq<string> := ["Name", "Year of Entry to Yale", "Error"]

  /** The five totals of the token columns; zeros when the service gave no counts. */
  function TokenTotals(counts: Option<Accumulated>): seq<int> {
    match counts
    case None => [0, 0, 0, 0, 0]
    case Some(c) =>
      [c.totalTokenCount, c.promptTokenCount, c.candidatesTokenCount, c.cachedContentTokenCount, c.thoughtsTokenCount]
  }

  /** The row of a parsed response: name, year, the nine record fields (an
      empty field stays ""), then the five token totals. */
  function FullRow(alumniName: string, yearOfEntry: Cell, record: AlumniRecord, totals: seq<int>): OutputRow
    requires |totals| == |TokenColumns|
  {
    [("Name", Str(alumniName)), ("Year of Entry to Yale", yearOfEntry)]
    + seq(|ResponseColumns|, i requires 0 <= i < |ResponseColumns| => (ResponseColumns[i], Str(FieldAt(record, i))))
    + seq(|TokenColumns|, i requires 0 <= i < |TokenColumns| => (TokenColumns[i], Int(totals[i])))
  }

  function ErrorRow(alumniName: string, yearOfEntry: Cell, error: string): OutputRow {
    [("Name", Str(alumniName)), ("Year of Entry to Yale", yearOfEntry), ("Error", Str(error))]
  }

  function Keys(row: OutputRow): (r: seq<string>)
    ensures |r| == |row| && forall i :: 0 <= i < |row| ==> r[i] == row[i].0
  {
    seq(|row|, i requires 0 <= i < |row| => row[i].0)
  }

  predicate RowShaped(row: OutputRow) {
    Keys(row) == FullColumns || Keys(row) == ErrorColumns
  }

  // ---------------------------------------------------------------------
  // One record

  /** The loop's state: `update_data` and the last values bound to
      `alumni_name` and `year_of_entry` (None while unbound). */
  datatype LoopState = LoopState(updateData: seq<OutputRow>, alumniName: Option<string>, yearOfEntry: Option<Cell>)

  /** After one record: the loop goes on, or `main` stops because the
      `except` block read a variable that was never bound. */
  datatype StepResult = Continue(state: LoopState) | Crash(unbound: string)

  /** The `except` block: the error row names the alumnus and year bound
      last, which belong to an earlier record when this record's lookups
      failed. */
  function Fail(st: LoopState, error: string): (r: StepResult)
    ensures r.Continue? <==> st.alumniName.Some? && st.yearOfEntry.Some?
    ensures r.Continue? ==>
      r.state.alumniName == st.alumniName && r.state.yearOfEntry == st.yearOfEntry
      && |r.state.updateData| == |st.updateData| + 1 && r.state.updateData[..|st.updateData|] == st.updateData
      && Keys(r.state.updateData[|st.updateData|]) == ErrorColumns
  {
    if st.alumniName.None? then Crash("alumni_name")
    else if st.yearOfEntry.None? then Crash("year_of_entry")
    else Continue(st.(updateData := st.updateData + [ErrorRow(st.alumniName.value, st.yearOfEntry.value, error)]))
  }

  /** `adk_service.get_agent_response(query=...)` for one record. */
  type Responder = string -> Result<Reply, string>

  /** The service asked with a given session id. */
  function ServiceResponder(userId: string, runner: Option<RunnerConfig>, sessionId: string, backend: Backend): Responder {
    q => AgentResponse(runner, userId, q, sessionId, backend)
  }

  /** The body of the loop for one record. */
  function RowStep(st: LoopState, row: InputRow, respond: Responder): (r: StepResult)
    ensures r.Continue? ==>
      |r.state.updateData| == |st.updateData| + 1 && r.state.updateData[..|st.updateData|] == st.updateData
      && RowShaped(r.state.updateData[|st.updateData|])
    ensures (LookupsSucceed(row) || (st.alumniName.Some? && st.yearOfEntry.Some?)) ==>
      r.Continue? && r.state.alumniName.Some? && r.state.yearOfEntry.Some?
  {
    match AlumniName(row)
    case Failure(e) => Fail(st, e)
    case Success(alumniName) =>
      var st1 := st.(alumniName := Some(alumniName));
      match Lookup(row, "Entry Year")
      case Failure(e) => Fail(st1, e)
      case Success(yearOfEntry) =>
        var st2 := st1.(yearOfEntry := Some(yearOfEntry));
        match respond(Query(alumniName, yearOfEntry))
        case Failure(e) => Fail(st2, e)
        case Success(reply) =>
          if reply.parsed.None? then Fail(st2, NoneResponseMessage)
          else
            var full := FullRow(alumniName, yearOfEntry, reply.parsed.value, TokenTotals(reply.tokenCounts));
            FullRowShaped(alumniName, yearOfEntry, reply.parsed.value, TokenTotals(reply.tokenCounts));
            Continue(st2.(updateData := st2.updateData + [full]))
  }

  lemma FullRowShaped(alumniName: string, yearOfEntry: Cell, record: AlumniRecord, totals: seq<int>)
    requires |totals| == |TokenColumns|
    ensures Keys(FullRow(alumniName, yearOfEntry, record, totals)) == FullColumns
  {
    var row := FullRow(alumniName, yearOfEntry, record, totals);
    assert |row| == |FullColumns|;
    forall i | 0 <= i < |row| ensures Keys(row)[i] == FullColumns[i] {
      if i < 2 {
      } else if i < 2 + |ResponseColumns| {
        assert row[i] == (ResponseColumns[i - 2], Str(FieldAt(record, i - 2)));
      } else {
        assert row[i].0 == TokenColumns[i - 2 - |ResponseColumns|];
      }
    }
  }

  /** A record whose name cannot be built leaves the error row with the
      name and year of the record before it. */
  lemma StaleIdentityInErrorRow(st: LoopState, row: InputRow, respond: Responder)
    requires AlumniName(row).Failure?
    requires st.alumniName.Some? && st.yearOfEntry.Some?
    ensures var r := RowStep(st, row, respond);
      r.Continue? && r.state.alumniName == st.alumniName && r.state.yearOfEntry == st.yearOfEntry
      && r.state.updateData == st.updateData
        + [ErrorRow(st.alumniName.value, st.yearOfEntry.value, AlumniName(row).error)]
  {
  }

  /** A record whose lookups succeed but for which no record was parsed
      gets an error row with its own name and year. */
  lemma NoneResponseErrorRow(st: LoopState, row: InputRow, respond: Responder)
    requires LookupsSucceed(row)
    requires var q := Query(AlumniName(row).value, row["Entry Year"]);
      respond(q).Success? && respond(q).value.parsed.None?
    ensures var r := RowStep(st, row, respond);
      r.Continue? && r.state.updateData
        == st.updateData + [ErrorRow(AlumniName(row).value, row["Entry Year"], NoneResponseMessage)]
  {
  }

  /** A parsed response gives the full row of this record, and the service
      always returns counts with a parsed record, so the token columns carry
      the counts the call accumulated: the zero defaults are never used. */
  lemma ParsedResponseRow(
    st: LoopState, row: InputRow, userId: string, runner: Option<RunnerConfig>, sessionId: string, backend: Backend)
    requires LookupsSucceed(row)
    requires var q := Query(AlumniName(row).value, row["Entry Year"]);
      AgentResponse(runner, userId, q, sessionId, backend).Success?
      && AgentResponse(runner, userId, q, sessionId, backend).value.parsed.Some?
    ensures var q := Query(AlumniName(row).value, row["Entry Year"]);
      var reply := AgentResponse(runner, userId, q, sessionId, backend).value;
      var r := RowStep(st, row, ServiceResponder(userId, runner, sessionId, backend));
      reply.tokenCounts.Some?
      && r.Continue? && r.state.updateData
        == st.updateData + [FullRow(AlumniName(row).value, row["Entry Year"], reply.parsed.value,
            TokenTotals(reply.tokenCounts))]
  {
  }

  // ---------------------------------------------------------------------
  // The loop

  /** The service for every record: record `i` gets session id `sessionIds(i)`. */
  function Responders(runner: Option<RunnerConfig>, backend: Backend, sessionIds: nat -> string): nat -> Responder {
    i => ServiceResponder(UserId, runner, sessionIds(i), backend)
  }

  /** The loop over `rows`, record `i` answered by `respondFor(i)`. */
  function RunRows(rows: seq<InputRow>, respondFor: nat -> Responder): StepResult
    decreases |rows|
  {
    if rows == [] then Continue(LoopState([], None, None))
    else
      match RunRows(rows[..|rows| - 1], respondFor)
      case Crash(v) => Crash(v)
      case Continue(st) => RowStep(st, rows[|rows| - 1], respondFor(|rows| - 1))
  }

  /** Without a crash, every record appends exactly one row, full or error. */
  lemma {:induction false} OneRowPerRecord(rows: seq<InputRow>, respondFor: nat -> Responder)
    requires RunRows(rows, respondFor).Continue?
    ensures var d := RunRows(rows, respondFor).state.updateData;
      |d| == |rows| && forall i :: 0 <= i < |d| ==> RowShaped(d[i])
    decreases |rows|
  {
    if rows != [] {
      var front := rows[..|rows| - 1];
      OneRowPerRecord(front, respondFor);
      var before := RunRows(front, respondFor).state.updateData;
      var d := RunRows(rows, respondFor).state.updateData;
      forall i | 0 <= i < |d| ensures RowShaped(d[i]) {
        if i < |before| {
          assert d[i] == d[..|before|][i];
        }
      }
    }
  }

  /** Once the first record's lookups succeed, both variables stay bound,
      so no later record can stop the loop. */
  lemma {:induction false} NoCrashAfterGoodFirstRecord(
    rows: seq<InputRow>, respondFor: nat -> Responder)
    requires rows != [] && LookupsSucceed(rows[0])
    ensures var r := RunRows(rows, respondFor);
      r.Continue? && r.state.alumniName.Some? && r.state.yearOfEntry.Some?
    decreases |rows|
  {
    var front := rows[..|rows| - 1];
    if front != [] {
      assert front[0] == rows[0];
      NoCrashAfterGoodFirstRecord(front, respondFor);
    }
  }

  /** A stop is final: once a prefix of the records crashes, so does the loop. */
  lemma {:induction false} CrashPersists(
    rows: seq<InputRow>, j: nat, respondFor: nat -> Responder)
    requires j <= |rows| && RunRows(rows[..j], respondFor).Crash?
    ensures RunRows(rows, respondFor) == RunRows(rows[..j], respondFor)
    decreases |rows| - j
  {
    if j < |rows| {
      assert rows[..j + 1][..j] == rows[..j];
      CrashPersists(rows, j + 1, respondFor);
    } else {
      assert rows[..j] == rows;
    }
  }

  /** When the first record's name cannot be built, the `except` block reads
      the unbound `alumni_name` and `main` stops. */
  lemma FirstRecordWithoutNameCrashes(
    rows: seq<InputRow>, respondFor: nat -> Responder)
    requires rows != [] && AlumniName(rows[0]).Failure?
    ensures RunRows(rows, respondFor) == Crash("alumni_name")
  {
    assert rows[..1][..0] == [];
    assert rows[..1][0] == rows[0];
    CrashPersists(rows, 1, respondFor);
  }

  /** The one-record step of `RunRows`. */
  lemma RunRowsSnoc(rows: seq<InputRow>, i: nat, respondFor: nat -> Responder)
    requires i < |rows|
    ensures var before := RunRows(rows[..i], respondFor);
      RunRows(rows[..i + 1], respondFor) ==
        if before.Crash? then before else RowStep(before.state, rows[i], respondFor(i))
  {
    assert rows[..i + 1][..i] == rows[..i];
  }

  /** One iteration of the loop: the lookups, the query, the service call
      and the row it appends. */
  method ProcessRecord(service: ADKService, st: LoopState, row: InputRow, sessionId: string, backend: Backend)
    returns (step: StepResult)
    ensures step == RowStep(st, row, ServiceResponder(service.userId, service.runner, sessionId, backend))
  {
    var name := AlumniName(row);
    if name.Failure? {
      return Fail(st, name.error);
    }
    var alumniName := name.value;
    var st1 := st.(alumniName := Some(alumniName));
    var year := Lookup(row, "Entry Year");
    if year.Failure? {
      return Fail(st1, year.error);
    }
    var yearOfEntry := year.value;
    var st2 := st1.(yearOfEntry := Some(yearOfEntry));
    var query := Query(alumniName, yearOfEntry);
    var response := service.GetAgentResponse(query, sessionId, backend);
    if response.Failure? {
      return Fail(st2, response.error);
    }
    var reply := response.value;
    if reply.parsed.None? {
      return Fail(st2, NoneResponseMessage);
    }
    var rowData := FullRow(alumniName, yearOfEntry, reply.parsed.value, TokenTotals(reply.tokenCounts));
    step := Continue(st2.(updateData := st2.updateData + [rowData]));
  }

  // ---------------------------------------------------------------------
  // The columns of the table

  /** `cols` extended by the keys of `row` it does not hold yet, in order. */
  function AddColumns(cols: seq<string>, row: OutputRow): seq<string>
    decreases |row|
  {
    if row == [] then cols
    else
      var c := AddColumns(cols, row[..|row| - 1]);
      var key := row[|row| - 1].0;
      if key in c then c else c + [key]
  }

  /** The columns of `pd.DataFrame(update_data)`: every key of every row,
      in order of first appearance. */
  function Columns(rows: seq<OutputRow>): seq<string>
    decreases |rows|
  {
    if rows == [] then [] else AddColumns(Columns(rows[..|rows| - 1]), rows[|rows| - 1])
  }

  predicate Distinct(s: seq<string>) {
    forall i, j :: 0 <= i < j < |s| ==> s[i] != s[j]
  }

  lemma {:induction false} AddColumnsDistinct(cols: seq<string>, row: OutputRow)
    requires Distinct(cols)
    ensures Distinct(AddColumns(cols, row))
    ensures forall k :: k in AddColumns(cols, row) <==> k in cols || k in Keys(row)
    decreases |row|
  {
    if row != [] {
      var front := row[..|row| - 1];
      AddColumnsDistinct(cols, front);
      assert Keys(row) == Keys(front) + [row[|row| - 1].0];
    }
  }

  /** The columns of the table are distinct and are exactly the keys of the rows. */
  lemma {:induction false} ColumnsOfRows(rows: seq<OutputRow>)
    ensures Distinct(Columns(rows))
    ensures forall k :: k in Columns(rows) <==> exists i :: 0 <= i < |rows| && k in Keys(rows[i])
    decreases |rows|
  {
    if rows != [] {
      var front := rows[..|rows| - 1];
      ColumnsOfRows(front);
      AddColumnsDistinct(Columns(front), rows[|rows| - 1]);
      forall k ensures k in Columns(rows) <==> exists i :: 0 <= i < |rows| && k in Keys(rows[i]) {
        if k in Columns(front) {
          var i :| 0 <= i < |front| && k in Keys(front[i]);
          assert rows[i] == front[i];
        }
        if i :| 0 <= i < |rows| && k in Keys(rows[i]) {
          if i < |front| {
            assert rows[i] == front[i];
          }
        }
      }
    }
  }

  /** The elements of `xs` not in `excluded`, in order. */
  function Without(xs: seq<string>, excluded: seq<string>): seq<string>
    decreases |xs|
  {
    if xs == [] then []
    else Without(xs[..|xs| - 1], excluded) + (if xs[|xs| - 1] in excluded then [] else [xs[|xs| - 1]])
  }

  /** The elements of `xs` that are in `allowed`, in order. */
  function Within(xs: seq<string>, allowed: seq<string>): seq<string>
    decreases |xs|
  {
    if xs == [] then []
    else Within(xs[..|xs| - 1], allowed) + (if xs[|xs| - 1] in allowed then [xs[|xs| - 1]] else [])
  }

  /** `column_order`: the other columns in their order, then those of the
      five token columns that are present, in their fixed order. */
  function ColumnOrder(columns: seq<string>): seq<string> {
    Without(columns, TokenColumns) + Within(TokenColumns, columns)
  }

  lemma {:induction false} SplitCounts(xs: seq<string>, ys: seq<string>)
    ensures multiset(Without(xs, ys)) + multiset(Within(xs, ys)) == multiset(xs)
    ensures forall k :: k in Without(xs, ys) <==> k in xs && k !in ys
    ensures forall k :: k in Within(xs, ys) <==> k in xs && k in ys
    decreases |xs|
  {
    if xs != [] {
      SplitCounts(xs[..|xs| - 1], ys);
      assert xs == xs[..|xs| - 1] + [xs[|xs| - 1]];
    }
  }

  lemma {:induction false} WithinDistinct(xs: seq<string>, ys: seq<string>)
    requires Distinct(xs)
    ensures Distinct(Within(xs, ys))
    decreases |xs|
  {
    if xs != [] {
      var front := xs[..|xs| - 1];
      assert Distinct(front);
      WithinDistinct(front, ys);
      SplitCounts(front, ys);
      assert xs[|xs| - 1] !in front;
    }
  }

  /** A sequence without repetitions holds each of its elements once. */
  lemma {:induction false} DistinctCounts(s: seq<string>)
    requires Distinct(s)
    ensures forall k :: multiset(s)[k] == if k in s then 1 else 0
    decreases |s|
  {
    if s != [] {
      var front := s[..|s| - 1];
      assert Distinct(front);
      DistinctCounts(front);
      assert s == front + [s[|s| - 1]];
      assert s[|s| - 1] !in front;
    }
  }

  /** Reordering keeps every column and adds none, and the token columns
      present come last. */
  lemma ColumnOrderPermutes(columns: seq<string>)
    requires Distinct(columns)
    ensures multiset(ColumnOrder(columns)) == multiset(columns)
    ensures var n := |Without(columns, TokenColumns)|;
      (forall i :: 0 <= i < n ==> ColumnOrder(columns)[i] !in TokenColumns)
      && (forall i :: n <= i < |ColumnOrder(columns)| ==> ColumnOrder(columns)[i] in TokenColumns)
  {
    TokenColumnsDistinct();
    SamePresentTokens(columns, TokenColumns);
    SplitCounts(columns, TokenColumns);
    TokensLast(columns, TokenColumns);
  }

  lemma TokenColumnsDistinct()
    ensures Distinct(TokenColumns)
  {
  }

  /** The token columns present, taken in either order, are the same multiset. */
  lemma SamePresentTokens(columns: seq<string>, tokens: seq<string>)
    requires Distinct(columns) && Distinct(tokens)
    ensures multiset(Within(tokens, columns)) == multiset(Within(columns, tokens))
  {
    var a := Within(tokens, columns);
    var b := Within(columns, tokens);
    SplitCounts(columns, tokens);
    SplitCounts(tokens, columns);
    WithinDistinct(columns, tokens);
    WithinDistinct(tokens, columns);
    DistinctCounts(a);
    DistinctCounts(b);
    assert forall k :: multiset(a)[k] == multiset(b)[k];
  }

  lemma TokensLast(columns: seq<string>, tokens: seq<string>)
    ensures var others := Without(columns, tokens);
      var order := others + Within(tokens, columns);
      (forall i :: 0 <= i < |others| ==> order[i] !in tokens)
      && (forall i :: |others| <= i < |order| ==> order[i] in tokens)
  {
    var others := Without(columns, tokens);
    var present := Within(tokens, columns);
    var order := others + present;
    SplitCounts(columns, tokens);
    SplitCounts(tokens, columns);
    forall i | 0 <= i < |order| ensures (i < |others| ==> order[i] !in tokens) && (i >= |others| ==> order[i] in tokens) {
      if i < |others| {
        assert order[i] == others[i];
      } else {
        assert order[i] == present[i - |others|];
      }
    }
  }

  // ---------------------------------------------------------------------
  // main

  /** How `main` ends: with the rows and the column order of the saved
      table, or with an exception. */
  datatype BatchResult =
    | Completed(updateData: seq<OutputRow>, columns: seq<string>)
    | InitializeFailed(error: FactoryError)
    | Crashed(unbound: string)

  /** `main` over the records of the CSV, record `i` using session id `sessionIds(i)`. */
  function Batch(initialData: seq<InputRow>, backend: Backend, sessionIds: nat -> string): BatchResult {
    match GetRootAgent(AgentMode)
    case Failure(e) => InitializeFailed(e)
    case Success(agent) =>
      var rows := initialData[..if |initialData| < MaxRecords then |initialData| else MaxRecords];
      match RunRows(rows, Responders(Some(RunnerConfig(agent, AppName)), backend, sessionIds))
      case Crash(v) => Crashed(v)
      case Continue(st) => Completed(st.updateData, ColumnOrder(Columns(st.updateData)))
  }

  /** The service is always initialised: `main`'s mode is accepted. */
  lemma MainModeAccepted()
    ensures GetRootAgent(AgentMode) == Success(AlumniResearcherAgent)
  {
    LowerOfLiteral(AgentMode, AgentMode);
    StripTrimmed(AgentMode);
  }

  /** What a finished batch holds: one row per record among the first ten,
      each full or an error row; the columns are those of the rows, each
      once, with the token columns last. A batch whose first record has
      both names and a year always finishes. */
  lemma BatchOutcome(initialData: seq<InputRow>, backend: Backend, sessionIds: nat -> string)
    ensures !Batch(initialData, backend, sessionIds).InitializeFailed?
    ensures initialData != [] && LookupsSucceed(initialData[0]) ==> Batch(initialData, backend, sessionIds).Completed?
    ensures var b := Batch(initialData, backend, sessionIds);
      b.Completed? ==>
        |b.updateData| == (if |initialData| < MaxRecords then |initialData| else MaxRecords)
        && (forall i :: 0 <= i < |b.updateData| ==> RowShaped(b.updateData[i]))
        && multiset(b.columns) == multiset(Columns(b.updateData))
  {
    MainModeAccepted();
    var respondFor := Responders(Some(RunnerConfig(AlumniResearcherAgent, AppName)), backend, sessionIds);
    var rows := initialData[..if |initialData| < MaxRecords then |initialData| else MaxRecords];
    if initialData != [] && LookupsSucceed(initialData[0]) {
      assert rows[0] == initialData[0];
      NoCrashAfterGoodFirstRecord(rows, respondFor);
    }
    if RunRows(rows, respondFor).Continue? {
      OneRowPerRecord(rows, respondFor);
      ReorderedColumns(RunRows(rows, respondFor).state.updateData);
    }
  }

  /** The reordered columns of any rows are those rows' columns, each once. */
  lemma ReorderedColumns(d: seq<OutputRow>)
    ensures multiset(ColumnOrder(Columns(d))) == multiset(Columns(d))
  {
    ColumnsOfRows(d);
    ColumnOrderPermutes(Columns(d));
  }

  /** `main`: create and initialise the service, process the first ten
      records, then reorder the columns. */
  method RunBatch(initialData: seq<InputRow>, backend: Backend, sessionIds: nat -> string) returns (result: BatchResult)
    ensures result == Batch(initialData, backend, sessionIds)
  {
    var service := new ADKService(UserId, AgentMode);
    var raised := service.Initialize();
    if raised.Some? {
      return InitializeFailed(raised.value);
    }
    var runner := service.runner;
    var respondFor := Responders(runner, backend, sessionIds);
    var rows := initialData[..if |initialData| < MaxRecords then |initialData| else MaxRecords];
    var st := LoopState([], None, None);
    var i := 0;
    while i < |rows|
      invariant 0 <= i <= |rows|
      invariant service.userId == UserId && service.runner == runner
      invariant RunRows(rows[..i], respondFor) == Continue(st)
    {
      var step := ProcessRecord(service, st, rows[i], sessionIds(i), backend);
      RunRowsSnoc(rows, i, respondFor);
      if step.Crash? {
        CrashPersists(rows, i + 1, respondFor);
        return Crashed(step.unbound);
      }
      st := step.state;
      i := i + 1;
    }
    assert rows[..i] == rows;
    result := Completed(st.updateData, ColumnOrder(Columns(st.updateData)));
  }
}
