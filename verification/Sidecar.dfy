// The usage sidecar (sidecar/main.go): validation and normalisation of reported items, and
// the single INSERT ... ON CONFLICT DO UPDATE statement that stores a batch.
module Sidecar {
  import opened Options
  import opened Text
  import opened UsageLog

  /* ---------- data ---------- */

  // A date field either parses as YYYY-MM-DD, and then denotes a day, or it does not.
  datatype Date = Day(day: int) | Malformed(text: string)

  datatype Item = Item(date: Date, appType: string, model: string, requestModel: string, usage: Usage)

  // A decoded report; `user` is the outcome of looking up its username or email.
  datatype Report = Report(user: Option<int>, source: string, granularity: string, items: seq<Item>)

  // The conflict columns of external_usage_daily.
  datatype RowKey = RowKey(user: int, source: string, day: int, app: string, model: string, requestedModel: string)

  datatype UsageRow = UsageRow(key: RowKey, usage: Usage)

  type Table = map<RowKey, Usage>

  datatype Response = Ok(accepted: int, rejected: int, user: int) | Refused(status: int)

  datatype Config = Config(allowedSources: set<string>, maxItems: int)

  function NewConfig(allowedSources: seq<string>, maxItems: int): Config {
    Config(set s | s in allowedSources && !Blank(s) :: Trim(s), maxItems)
  }

  /* ---------- one item ---------- */

  function OrElse(s: string, other: string): string {
    if s == "" then other else s
  }

  // formatCost stores no negative cost.
  function Stored(u: Usage): Usage {
    u.(cost := if u.cost < 0 then 0 else u.cost)
  }

  function Normalize(user: int, source: string, item: Item): Option<UsageRow> {
    var model := Trim(item.model);
    if item.date.Malformed? then None
    else if model == "" then None
    else if item.usage.requests < 0 || item.usage.successes < 0 || item.usage.successes > item.usage.requests then None
    else if item.usage.input < 0 || item.usage.output < 0 then None
    else if item.usage.cacheRead < 0 || item.usage.cacheCreation < 0 then None
    else
      Some(UsageRow(RowKey(user, source, item.date.day, OrElse(Trim(item.appType), "unknown"), model,
                           OrElse(Trim(item.requestModel), model)),
                    Stored(item.usage)))
  }

  predicate SourceAllowed(config: Config, source: string) {
    config.allowedSources == {} || source in config.allowedSources
  }

  function EffectiveSource(source: string): string {
    OrElse(Trim(source), "cc-switch")
  }

  /* ---------- what the pieces above amount to ---------- */

  // The allow list holds the configured names, trimmed, without the blank ones.
  lemma NewConfigExactly(allowedSources: seq<string>, maxItems: int, source: string)
    ensures source in NewConfig(allowedSources, maxItems).allowedSources <==>
            source != "" && exists i :: 0 <= i < |allowedSources| && Trim(allowedSources[i]) == source
    ensures NewConfig(allowedSources, maxItems).maxItems == maxItems
  {
    hide Trim;
  }

  // An item is rejected exactly for one of these reasons.
  lemma RejectedExactly(user: int, source: string, item: Item)
    ensures Normalize(user, source, item) == None <==>
            || item.date.Malformed?
            || Trim(item.model) == ""
            || item.usage.requests < 0 || item.usage.successes < 0 || item.usage.requests < item.usage.successes
            || item.usage.input < 0 || item.usage.output < 0
            || item.usage.cacheRead < 0 || item.usage.cacheCreation < 0
  {
    hide Trim;
  }

  // The row of an item that is not: names trimmed, a blank application is "unknown", a blank
  // request model is the model, a negative cost is zero, everything else as reported.
  lemma NormalizedExactly(user: int, source: string, item: Item)
    requires Normalize(user, source, item).Some?
    ensures
      var row := Normalize(user, source, item).value;
      && row.key.user == user && row.key.source == source && item.date == Day(row.key.day)
      && row.key.app == (if Trim(item.appType) == "" then "unknown" else Trim(item.appType))
      && row.key.model == Trim(item.model)
      && row.key.requestedModel == (if Trim(item.requestModel) == "" then Trim(item.model) else Trim(item.requestModel))
      && row.usage.requests == item.usage.requests && row.usage.successes == item.usage.successes
      && row.usage.input == item.usage.input && row.usage.output == item.usage.output
      && row.usage.cacheRead == item.usage.cacheRead && row.usage.cacheCreation == item.usage.cacheCreation
      && row.usage.cost == (if item.usage.cost < 0 then 0 else item.usage.cost)
  {
    hide Trim;
  }

  /* ---------- the upsert statement ---------- */

  // The request counts are INTEGER columns.
  predicate FitsColumns(u: Usage) {
    u.requests <= 0x7FFF_FFFF && u.successes <= 0x7FFF_FFFF
  }

  predicate DistinctKeys(rows: seq<UsageRow>) {
    forall i, j :: 0 <= i < j < |rows| ==> rows[i].key != rows[j].key
  }

  // When the statement succeeds: the wire protocol carries the number of parameters in 16 bits,
  // and ON CONFLICT DO UPDATE refuses to touch a row twice.
  predicate Executable(rows: seq<UsageRow>) {
    && 13 * |rows| <= 65535
    && DistinctKeys(rows)
    && forall i :: 0 <= i < |rows| ==> FitsColumns(rows[i].usage)
  }

  function Overwrite(table: Table, rows: seq<UsageRow>): Table {
    if rows == [] then table
    else Overwrite(table, rows[..|rows| - 1])[rows[|rows| - 1].key := rows[|rows| - 1].usage]
  }

  datatype Arg = Number(n: int) | Text(s: string) | DateText(day: int)

  function RowArgs(r: UsageRow): (args: seq<Arg>)
    ensures |args| == 13
  {
    [Number(r.key.user), Text(r.key.source), DateText(r.key.day), Text(r.key.app), Text(r.key.model),
     Text(r.key.requestedModel), Number(r.usage.requests), Number(r.usage.successes), Number(r.usage.input),
     Number(r.usage.output), Number(r.usage.cacheRead), Number(r.usage.cacheCreation), Number(r.usage.cost)]
  }

  // The database reads the thirteen values of a VALUES tuple as the listed columns.
  function ColumnsToRow(v: seq<Arg>): Option<UsageRow> {
    if |v| == 13 && v[0].Number? && v[1].Text? && v[2].DateText? && v[3].Text? && v[4].Text? && v[5].Text?
      && v[6].Number? && v[7].Number? && v[8].Number? && v[9].Number? && v[10].Number? && v[11].Number? && v[12].Number?
    then Some(UsageRow(RowKey(v[0].n, v[1].s, v[2].day, v[3].s, v[4].s, v[5].s),
                       Usage(v[6].n, v[7].n, v[8].n, v[9].n, v[10].n, v[11].n, v[12].n)))
    else None
  }

  // Placeholder $p stands for args[p - 1].
  function BindClause(clause: seq<int>, args: seq<Arg>): Option<UsageRow> {
    if forall j :: 0 <= j < |clause| ==> 1 <= clause[j] <= |args|
    then ColumnsToRow(seq(|clause|, j requires 0 <= j < |clause| => args[clause[j] - 1]))
    else None
  }

  function Bind(clauses: seq<seq<int>>, args: seq<Arg>): Option<seq<UsageRow>> {
    if clauses == [] then Some([])
    else
      var front := Bind(clauses[..|clauses| - 1], args);
      var last := BindClause(clauses[|clauses| - 1], args);
      if front.Some? && last.Some? then Some(front.value + [last.value]) else None
  }

  // What the database does with the statement: all of it or nothing.
  function Execute(table: Table, clauses: seq<seq<int>>, args: seq<Arg>): Option<Table> {
    var rows := Bind(clauses, args);
    if rows.Some? && |args| <= 65535 && Executable(rows.value) then Some(Overwrite(table, rows.value)) else None
  }

  // The layout the loops of UpsertBatch produce.
  function Clause(row: int): (c: seq<int>)
    ensures |c| == 13
  {
    seq(13, j => row * 13 + j + 1)
  }

  function Clauses(n: nat): (cs: seq<seq<int>>)
    ensures |cs| == n
  {
    seq(n, i => Clause(i))
  }

  function Args(rows: seq<UsageRow>): (args: seq<Arg>)
    ensures |args| == 13 * |rows|
  {
    if rows == [] then [] else Args(rows[..|rows| - 1]) + RowArgs(rows[|rows| - 1])
  }

  // Column j of row i is bound to parameter 13 * i + j + 1.
  lemma {:induction false} ArgPosition(rows: seq<UsageRow>, i: nat, j: nat)
    requires i < |rows| && j < 13
    ensures Args(rows)[13 * i + j] == RowArgs(rows[i])[j]
  {
    if i < |rows| - 1 {
      ArgPosition(rows[..|rows| - 1], i, j);
    }
  }

  // The order of the columns named in the statement: user_id, source, usage_date, app_type, model,
  // requested_model, request_count, success_count, input_tokens, output_tokens,
  // cache_read_tokens, cache_creation_tokens, total_cost.
  lemma ColumnOrder(r: UsageRow)
    ensures var a := RowArgs(r);
      && a[0] == Number(r.key.user) && a[1] == Text(r.key.source) && a[2] == DateText(r.key.day)
      && a[3] == Text(r.key.app) && a[4] == Text(r.key.model) && a[5] == Text(r.key.requestedModel)
      && a[6] == Number(r.usage.requests) && a[7] == Number(r.usage.successes)
      && a[8] == Number(r.usage.input) && a[9] == Number(r.usage.output)
      && a[10] == Number(r.usage.cacheRead) && a[11] == Number(r.usage.cacheCreation)
      && a[12] == Number(r.usage.cost)
  {
  }

  lemma ColumnsOfRow(r: UsageRow)
    ensures ColumnsToRow(RowArgs(r)) == Some(r)
  {
  }

  lemma BindOneClause(rows: seq<UsageRow>, i: nat)
    requires i < |rows|
    ensures BindClause(Clause(i), Args(rows)) == Some(rows[i])
  {
    hide ColumnsToRow, RowArgs, Args;
    var c, args, values := Clause(i), Args(rows), RowArgs(rows[i]);
    forall j: nat | j < 13 ensures 1 <= c[j] <= |args| && args[c[j] - 1] == values[j] {
      ArgPosition(rows, i, j);
    }
    assert seq(|c|, j requires 0 <= j < |c| => args[c[j] - 1]) == values;
    ColumnsOfRow(rows[i]);
  }

  lemma {:induction false} BindFirst(rows: seq<UsageRow>, n: nat)
    requires n <= |rows|
    ensures Bind(Clauses(n), Args(rows)) == Some(rows[..n])
  {
    hide BindClause, Clause, Args;
    if n > 0 {
      BindFirst(rows, n - 1);
      BindOneClause(rows, n - 1);
      assert Clauses(n)[..n - 1] == Clauses(n - 1);
      assert rows[..n] == rows[..n - 1] + [rows[n - 1]];
    }
  }

  // Substituting the arguments into the generated statement gives back exactly the rows, and
  // the placeholders are $1 ... $13n, each used once, in order.
  lemma PlaceholderLayout(rows: seq<UsageRow>)
    ensures Bind(Clauses(|rows|), Args(rows)) == Some(rows)
    ensures forall i, j :: 0 <= i < |rows| && 0 <= j < 13 ==> Clauses(|rows|)[i][j] == 13 * i + j + 1
    ensures |rows| <= 5041 <==> |Args(rows)| <= 65535
  {
    BindFirst(rows, |rows|);
    assert rows[..|rows|] == rows;
  }

  /* ---------- handling a report ---------- */

  function NormalizedRows(user: int, source: string, items: seq<Item>): (rows: seq<UsageRow>)
    ensures |rows| <= |items|
  {
    if items == [] then []
    else
      var row := Normalize(user, source, items[|items| - 1]);
      var front := NormalizedRows(user, source, items[..|items| - 1]);
      if row.Some? then front + [row.value] else front
  }

  // The status with which a report is turned away before its items are looked at.
  function Refusal(config: Config, r: Report): Option<int> {
    if r.granularity != "" && r.granularity != "daily" then Some(400)
    else if |r.items| == 0 || |r.items| > config.maxItems then Some(400)
    else if !SourceAllowed(config, EffectiveSource(r.source)) then Some(400)
    else if r.user.None? then Some(403)
    else None
  }

  function Store(table: Table, user: int, rows: seq<UsageRow>, items: int): (Response, Table) {
    if rows == [] then (Refused(400), table)
    else if Executable(rows) then (Ok(|rows|, items - |rows|, user), Overwrite(table, rows))
    else (Refused(500), table)
  }

  // The response and the new table.
  function Serve(config: Config, table: Table, r: Report): (Response, Table) {
    if Refusal(config, r).Some? then (Refused(Refusal(config, r).value), table)
    else
      var user := if r.user.Some? then r.user.value else 0;
      Store(table, user, NormalizedRows(user, EffectiveSource(r.source), r.items), |r.items|)
  }

  class Server {
    const config: Config
    var table: Table

    constructor (allowedSources: seq<string>, maxItems: int)
      ensures config == NewConfig(allowedSources, maxItems) && table == map[]
    {
      config := NewConfig(allowedSources, maxItems);
      table := map[];
    }

    // None is a failed statement.
    method UpsertBatch(rows: seq<UsageRow>) returns (written: Option<int>)
      modifies this
      ensures written == if Executable(rows) then Some(|rows|) else None
      ensures table == if Executable(rows) then Overwrite(old(table), rows) else old(table)
    {
      if |rows| == 0 {
        return Some(0);
      }
      var valueClauses: seq<seq<int>>, args: seq<Arg> := [], [];
      for index := 0 to |rows|
        invariant valueClauses == Clauses(index)
        invariant args == Args(rows[..index])
      {
        var base := index * 13;
        var placeholders: seq<int> := [];
        for offset := 0 to 13
          invariant placeholders == Clause(index)[..offset]
        {
          placeholders := placeholders + [base + offset + 1];
        }
        valueClauses := valueClauses + [placeholders];
        args := args + RowArgs(rows[index]);
        assert placeholders == Clause(index);
        assert rows[..index + 1][..index] == rows[..index];
        assert valueClauses == Clauses(index + 1);
      }
      assert rows[..|rows|] == rows;
      PlaceholderLayout(rows);
      var executed := Execute(table, valueClauses, args);
      if executed.None? {
        return None;
      }
      table := executed.value;
      return Some(|rows|);
    }

    method HandleReport(r: Report) returns (response: Response)
      modifies this
      ensures (response, table) == Serve(config, old(table), r)
      ensures
        var source := if Trim(r.source) == "" then "cc-switch" else Trim(r.source);
        config.allowedSources != {} && source !in config.allowedSources ==>
          response == Refused(400) && table == old(table)
    {
      hide NormalizedRows, Overwrite, Executable, Trim;
      if r.granularity != "" && r.granularity != "daily" {
        return Refused(400);
      }
      if |r.items| == 0 {
        return Refused(400);
      }
      if |r.items| > config.maxItems {
        return Refused(400);
      }
      var source := Trim(r.source);
      if source == "" {
        source := "cc-switch";
      }
      if !SourceAllowed(config, source) {
        return Refused(400);
      }
      if r.user.None? {
        return Refused(403);
      }
      var rows, rejected := NormalizeAll(r.user.value, source, r.items);
      if |rows| == 0 {
        return Refused(400);
      }
      var accepted := UpsertBatch(rows);
      if accepted.None? {
        return Refused(500);
      }
      return Ok(accepted.value, rejected, r.user.value);
    }
  }

  // A report from a source that is not listed is refused and stores nothing; a listed source,
  // or an empty list, is never a reason to refuse one.
  lemma SourcesListedExactly(config: Config, table: Table, r: Report)
    ensures
      var source := if Trim(r.source) == "" then "cc-switch" else Trim(r.source);
      if config.allowedSources != {} && source !in config.allowedSources
      then Serve(config, table, r) == (Refused(400), table)
      else Serve(config, table, r) == Serve(config.(allowedSources := {}), table, r)
  {
    hide Trim, NormalizedRows, Executable, Overwrite;
  }

  function CountValid(items: seq<Item>): nat {
    if items == [] then 0
    else CountValid(items[..|items| - 1]) + if Acceptable(items[|items| - 1]) then 1 else 0
  }

  lemma {:induction false} CountNormalized(user: int, source: string, items: seq<Item>)
    ensures |NormalizedRows(user, source, items)| == CountValid(items)
  {
    hide Normalize, Acceptable;
    if items != [] {
      CountNormalized(user, source, items[..|items| - 1]);
      AcceptableExactly(user, source, items[|items| - 1]);
    }
  }

  // The answer to every report, cause by cause.
  lemma AnswerExactly(config: Config, table: Table, r: Report)
    ensures
      var source := if Trim(r.source) == "" then "cc-switch" else Trim(r.source);
      Serve(config, table, r).0 ==
            if r.granularity !in {"", "daily"} || |r.items| == 0 || config.maxItems < |r.items| then Refused(400)
            else if config.allowedSources != {} && source !in config.allowedSources then Refused(400)
            else if r.user == None then Refused(403)
            else if CountValid(r.items) == 0 then Refused(400)
            else if !Executable(NormalizedRows(r.user.value, source, r.items)) then Refused(500)
            else Ok(CountValid(r.items), |r.items| - CountValid(r.items), r.user.value)
  {
    hide Trim, NormalizedRows, Executable, Overwrite, CountValid;
    if r.user.Some? {
      CountNormalized(r.user.value, EffectiveSource(r.source), r.items);
    }
  }

  // The loop over the items of a report.
  method NormalizeAll(user: int, source: string, items: seq<Item>) returns (rows: seq<UsageRow>, rejected: int)
    ensures rows == NormalizedRows(user, source, items)
    ensures rejected == |items| - |rows|
  {
    rows, rejected := [], 0;
    for i := 0 to |items|
      invariant rows == NormalizedRows(user, source, items[..i])
      invariant rejected == i - |rows|
    {
      var row := Normalize(user, source, items[i]);
      assert items[..i + 1][..i] == items[..i];
      if row.None? {
        rejected := rejected + 1;
        continue;
      }
      rows := rows + [row.value];
    }
    assert items[..|items|] == items;
  }

  /* ---------- acceptance ---------- */

  // What normalizeItem asks of an item.
  predicate Acceptable(item: Item) {
    && item.date.Day?
    && !Blank(item.model)
    && 0 <= item.usage.successes <= item.usage.requests
    && item.usage.input >= 0 && item.usage.output >= 0
    && item.usage.cacheRead >= 0 && item.usage.cacheCreation >= 0
  }

  function KeyFor(user: int, source: string, item: Item): RowKey {
    var model := Trim(item.model);
    RowKey(user, source, if item.date.Day? then item.date.day else 0, OrElse(Trim(item.appType), "unknown"), model,
           OrElse(Trim(item.requestModel), model))
  }

  // The row of an acceptable item.
  function RowFor(user: int, source: string, item: Item): UsageRow {
    UsageRow(KeyFor(user, source, item), Stored(item.usage))
  }

  function RowsFor(user: int, source: string, items: seq<Item>): (rows: seq<UsageRow>)
    ensures |rows| == |items|
  {
    seq(|items|, i requires 0 <= i < |items| => RowFor(user, source, items[i]))
  }

  predicate AllAcceptable(items: seq<Item>) {
    forall i :: 0 <= i < |items| ==> Acceptable(items[i])
  }

  lemma AcceptableExactly(user: int, source: string, item: Item)
    ensures Normalize(user, source, item)
         == if Acceptable(item) then Some(RowFor(user, source, item)) else None
  {
    hide Trim;
  }

  lemma {:induction false} NormalizedRowsOfAcceptable(user: int, source: string, items: seq<Item>)
    requires AllAcceptable(items)
    ensures NormalizedRows(user, source, items) == RowsFor(user, source, items)
  {
    hide Normalize, RowFor, Acceptable;
    if items != [] {
      var front := items[..|items| - 1];
      NormalizedRowsOfAcceptable(user, source, front);
      AcceptableExactly(user, source, items[|items| - 1]);
      assert RowsFor(user, source, items) == RowsFor(user, source, front) + [RowFor(user, source, items[|items| - 1])];
    }
  }

  lemma {:induction false} RejectedItemIsMissing(user: int, source: string, items: seq<Item>, i: nat)
    requires i < |items| && !Acceptable(items[i])
    ensures |NormalizedRows(user, source, items)| < |items|
  {
    hide Normalize;
    if i < |items| - 1 {
      RejectedItemIsMissing(user, source, items[..|items| - 1], i);
    } else {
      AcceptableExactly(user, source, items[i]);
    }
  }

  predicate FullyAccepted(response: Response, sent: int) {
    response.Ok? && response.accepted == sent && response.rejected == 0
  }

  // The conditions under which a report is stored completely.
  ghost predicate StoredWhole(config: Config, r: Report) {
    && Refusal(config, r).None?
    && |r.items| <= 5041
    && AllAcceptable(r.items)
    && (forall i :: 0 <= i < |r.items| ==> FitsColumns(Stored(r.items[i].usage)))
    && (forall i, j :: 0 <= i < j < |r.items| ==>
          KeyFor(r.user.value, EffectiveSource(r.source), r.items[i])
          != KeyFor(r.user.value, EffectiveSource(r.source), r.items[j]))
  }

  // The client treats a batch as sent only if every item was accepted and none rejected;
  // this is exactly when that happens.
  lemma FullyAcceptedExactly(config: Config, table: Table, r: Report)
    ensures FullyAccepted(Serve(config, table, r).0, |r.items|) <==> StoredWhole(config, r)
  {
    hide Normalize, NormalizedRows, Overwrite, Trim, Stored, Executable, KeyFor, Acceptable;
    if Refusal(config, r).None? {
      var user, source := r.user.value, EffectiveSource(r.source);
      var rows := NormalizedRows(user, source, r.items);
      if AllAcceptable(r.items) {
        NormalizedRowsOfAcceptable(user, source, r.items);
        ExecutableExactly(user, source, r.items);
      } else {
        var i :| 0 <= i < |r.items| && !Acceptable(r.items[i]);
        RejectedItemIsMissing(user, source, r.items, i);
      }
    }
  }

  lemma ExecutableExactly(user: int, source: string, items: seq<Item>)
    ensures Executable(RowsFor(user, source, items))
       <==> && |items| <= 5041
            && (forall i :: 0 <= i < |items| ==> FitsColumns(Stored(items[i].usage)))
            && (forall i, j ::
                  0 <= i < j < |items| ==> KeyFor(user, source, items[i]) != KeyFor(user, source, items[j]))
  {
    hide KeyFor, FitsColumns;
    var rows := RowsFor(user, source, items);
    if Executable(rows) {
      forall i | 0 <= i < |items| ensures FitsColumns(Stored(items[i].usage)) {
        assert rows[i].usage == Stored(items[i].usage);
      }
      forall i, j | 0 <= i < j < |items| ensures KeyFor(user, source, items[i]) != KeyFor(user, source, items[j]) {
        assert rows[i].key != rows[j].key;
      }
    }
  }

  // A report that is turned away or fails leaves the table alone; otherwise all its valid
  // items are stored.
  lemma AllOrNothing(config: Config, table: Table, r: Report)
    ensures Serve(config, table, r).0.Refused? ==> Serve(config, table, r).1 == table
    ensures Serve(config, table, r).0.Ok? ==>
              r.user.Some? &&
              Serve(config, table, r).1 == Overwrite(table,
                  NormalizedRows(r.user.value, EffectiveSource(r.source), r.items))
  {
    hide Overwrite, Executable, NormalizedRows, EffectiveSource, SourceAllowed;
  }

  /* ---------- algebra of deliveries ---------- */

  // One statement per batch; a batch the database refuses changes nothing.
  function DeliverAll(table: Table, batches: seq<seq<UsageRow>>): Table {
    if batches == [] then table
    else
      var before := DeliverAll(table, batches[..|batches| - 1]);
      var rows := batches[|batches| - 1];
      if Executable(rows) then Overwrite(before, rows) else before
  }

  function ValueIn(rows: seq<UsageRow>, k: RowKey): Option<Usage> {
    if rows == [] then None
    else if rows[|rows| - 1].key == k then Some(rows[|rows| - 1].usage)
    else ValueIn(rows[..|rows| - 1], k)
  }

  // The value of `k` in the last batch that was stored and mentions it.
  function LastDelivered(batches: seq<seq<UsageRow>>, k: RowKey): Option<Usage> {
    if batches == [] then None
    else
      var rows := batches[|batches| - 1];
      if Executable(rows) && ValueIn(rows, k).Some? then ValueIn(rows, k)
      else LastDelivered(batches[..|batches| - 1], k)
  }

  function At(table: Table, k: RowKey): Option<Usage> {
    if k in table then Some(table[k]) else None
  }

  lemma {:induction false} OverwriteValue(table: Table, rows: seq<UsageRow>, k: RowKey)
    ensures At(Overwrite(table, rows), k) == if ValueIn(rows, k).Some? then ValueIn(rows, k) else At(table, k)
  {
    if rows != [] {
      OverwriteValue(table, rows[..|rows| - 1], k);
    }
  }

  lemma {:induction false} IndexOfValue(rows: seq<UsageRow>, rk: RowKey) returns (i: nat)
    requires ValueIn(rows, rk).Some?
    ensures i < |rows| && rows[i].key == rk && Some(rows[i].usage) == ValueIn(rows, rk)
  {
    if rows[|rows| - 1].key == rk {
      i := |rows| - 1;
    } else {
      i := IndexOfValue(rows[..|rows| - 1], rk);
    }
  }

  lemma {:induction false} UniqueValue(rows: seq<UsageRow>, i: nat)
    requires i < |rows| && DistinctKeys(rows)
    ensures ValueIn(rows, rows[i].key) == Some(rows[i].usage)
  {
    if i < |rows| - 1 {
      UniqueValue(rows[..|rows| - 1], i);
    }
  }

  predicate HasValid(user: int, source: string, items: seq<Item>, i: int, k: RowKey) {
    0 <= i < |items| && Acceptable(items[i]) && KeyFor(user, source, items[i]) == k
  }

  // The rows of a report are those of its acceptable items.
  lemma {:induction false} NormalizedRowsExactly(user: int, source: string, items: seq<Item>, row: UsageRow)
    ensures row in NormalizedRows(user, source, items) <==>
            exists i :: HasValid(user, source, items, i, row.key) && Stored(items[i].usage) == row.usage
  {
    hide Normalize, Acceptable, KeyFor, Stored;
    if items != [] {
      var front, last := items[..|items| - 1], items[|items| - 1];
      NormalizedRowsExactly(user, source, front, row);
      AcceptableExactly(user, source, last);
      assert forall i :: 0 <= i < |front| ==> front[i] == items[i];
      assert forall i :: HasValid(user, source, items, i, row.key) <==>
               HasValid(user, source, front, i, row.key)
               || (i == |items| - 1 && Acceptable(last) && KeyFor(user, source, last) == row.key);
    }
  }

  // What a report does to one row of the table: nothing if it is refused, whatever the reason;
  // otherwise the row of every valid item holds that item's value, and every other row is as it was.
  lemma StoredExactly(config: Config, table: Table, r: Report, k: RowKey)
    ensures Serve(config, table, r).0.Refused? ==> Serve(config, table, r).1 == table
    ensures Serve(config, table, r).0.Ok? ==>
              && r.user.Some?
              && (forall i :: HasValid(r.user.value, EffectiveSource(r.source), r.items, i, k) ==>
                    At(Serve(config, table, r).1, k) == Some(Stored(r.items[i].usage)))
              && ((forall i :: !HasValid(r.user.value, EffectiveSource(r.source), r.items, i, k)) ==>
                    At(Serve(config, table, r).1, k) == At(table, k))
  {
    hide Acceptable, KeyFor, NormalizedRows, EffectiveSource, SourceAllowed, FitsColumns, Overwrite, At, ValueIn,
        Stored;
    if Serve(config, table, r).0.Ok? {
      var user, source := r.user.value, EffectiveSource(r.source);
      var rows := NormalizedRows(user, source, r.items);
      OverwriteValue(table, rows, k);
      forall i | HasValid(user, source, r.items, i, k)
        ensures ValueIn(rows, k) == Some(Stored(r.items[i].usage))
      {
        ValidItemValue(user, source, r.items, i, k);
      }
      if ValueIn(rows, k).Some? {
        var j := IndexOfValue(rows, k);
        NormalizedRowsExactly(user, source, r.items, rows[j]);
      }
    }
  }

  lemma ValidItemValue(user: int, source: string, items: seq<Item>, i: nat, k: RowKey)
    requires HasValid(user, source, items, i, k) && DistinctKeys(NormalizedRows(user, source, items))
    ensures ValueIn(NormalizedRows(user, source, items), k) == Some(Stored(items[i].usage))
  {
    hide NormalizedRows, Acceptable, KeyFor, Stored;
    var rows, row := NormalizedRows(user, source, items), UsageRow(k, Stored(items[i].usage));
    NormalizedRowsExactly(user, source, items, row);
    var j :| 0 <= j < |rows| && rows[j] == row;
    UniqueValue(rows, j);
  }

  // After any sequence of deliveries, with any repetitions, a row holds what was last stored.
  lemma {:induction false} LastDeliveryWins(table: Table, batches: seq<seq<UsageRow>>, k: RowKey)
    ensures At(DeliverAll(table, batches), k)
         == if LastDelivered(batches, k).Some? then LastDelivered(batches, k) else At(table, k)
  {
    if batches != [] {
      var front, rows := batches[..|batches| - 1], batches[|batches| - 1];
      LastDeliveryWins(table, front, k);
      OverwriteValue(DeliverAll(table, front), rows, k);
    }
  }

  lemma SameTable(s: Table, t: Table)
    requires forall k :: At(s, k) == At(t, k)
    ensures s == t
  {
    assert forall k :: k in s <==> At(s, k).Some?;
    assert forall k :: k in t <==> At(t, k).Some?;
    forall k | k in s ensures k in t && s[k] == t[k] {
      assert At(s, k) == At(t, k);
    }
    forall k | k in t ensures k in s {
      assert At(s, k) == At(t, k);
    }
  }

  // Storing a batch again at once changes nothing: a retry never counts twice.
  lemma ReplayIsNoOp(table: Table, rows: seq<UsageRow>)
    ensures Overwrite(Overwrite(table, rows), rows) == Overwrite(table, rows)
  {
    var once := Overwrite(table, rows);
    forall k ensures At(Overwrite(once, rows), k) == At(once, k) {
      OverwriteValue(once, rows, k);
      OverwriteValue(table, rows, k);
    }
    SameTable(Overwrite(once, rows), once);
  }

  // Batches about different rows can be stored in either order.
  lemma DisjointBatchesCommute(table: Table, a: seq<UsageRow>, b: seq<UsageRow>)
    requires forall k :: ValueIn(a, k).None? || ValueIn(b, k).None?
    ensures Overwrite(Overwrite(table, a), b) == Overwrite(Overwrite(table, b), a)
  {
    var ab, ba := Overwrite(Overwrite(table, a), b), Overwrite(Overwrite(table, b), a);
    forall k ensures At(ab, k) == At(ba, k) {
      OverwriteValue(table, a, k);
      OverwriteValue(table, b, k);
      OverwriteValue(Overwrite(table, a), b, k);
      OverwriteValue(Overwrite(table, b), a, k);
    }
    SameTable(ab, ba);
  }
}
