/**
 * `/api/uploadCSV`: the rows of an uploaded table, each normalised through
 * fixed header aliases, enriched inline and created as one lead — `completed`
 * with its enrichment or `failed` without — and the counts of both kinds.
 */
module UploadCsvRoute {
  import opened Wrappers
  import opened Http
  import opened JsString
  import opened LeadStore
  import opened Pipeline

  /** One parsed row: header name to cell text; a header the file lacks is absent. */
  type Row = map<string, string>

  /** The upload: no file at all, or the parser's output with the number of errors it reported. */
  datatype Upload = NoFile | Parsed(errorCount: nat, rows: seq<Row>)

  /** The fields of a row after alias resolution. */
  datatype RowFields = RowFields(name: string, title: Option<string>, company: Option<string>,
                                 location: Option<string>, linkedinUrl: Option<string>,
                                 connectionDegree: Option<string>)

  /** `{ enrichedCount, failedCount, totalCount, leads, failedLeads }`. */
  datatype Summary = Summary(enrichedCount: nat, failedCount: nat, totalCount: nat,
                             leads: seq<Lead>, failedLeads: seq<Lead>)

  const TitleAliases: seq<string> := ["Title", "title", "Position", "position"]
  const CompanyAliases: seq<string> := ["Company", "company", "Organization", "organization"]
  const LocationAliases: seq<string> := ["Location", "location", "City", "city"]
  const LinkedinAliases: seq<string> := ["LinkedIn URL", "linkedinUrl", "LinkedIn", "linkedin"]
  const ConnectionAliases: seq<string> := ["Connection Degree", "connectionDegree", "Connection", "connection"]

  /** `row[key]`: the cell, or `undefined`. */
  function Cell(row: Row, key: string): Option<string> {
    if key in row then Some(row[key]) else None
  }

  /** The cells of a row under each alias, in priority order. */
  function Cells(row: Row, aliases: seq<string>): seq<Option<string>> {
    if aliases == [] then [] else [Cell(row, aliases[0])] + Cells(row, aliases[1..])
  }

  /** The k-th cell is the row's cell under the k-th alias. */
  lemma {:induction false} CellsSpec(row: Row, aliases: seq<string>)
    ensures |Cells(row, aliases)| == |aliases|
    ensures forall k :: 0 <= k < |aliases| ==> Cells(row, aliases)[k] == Cell(row, aliases[k])
  {
    if aliases != [] {
      CellsSpec(row, aliases[1..]);
      forall k | 0 <= k < |aliases| ensures Cells(row, aliases)[k] == Cell(row, aliases[k]) {
        if k > 0 { assert aliases[k] == aliases[1..][k - 1]; }
      }
    }
  }

  /** `row.A || row.B || row.C || row.D || null`. */
  function Alias(row: Row, aliases: seq<string>): Option<string> {
    FirstTruthy(Cells(row, aliases))
  }

  /** `` `${row['First Name'] || ''} ${row['Last Name'] || ''}`.trim() ``. */
  function ComposedName(row: Row): string {
    Trim(OrElse(Cell(row, "First Name"), "") + " " + OrElse(Cell(row, "Last Name"), ""))
  }

  /** `row.Name || row.name || composed || 'Unknown'`. */
  function RowName(row: Row): string {
    NameFrom(Cell(row, "Name"), Cell(row, "name"), ComposedName(row))
  }

  function NameFrom(upper: Option<string>, lower: Option<string>, composed: string): string {
    OrElse(upper, OrElse(lower, OrElse(Some(composed), "Unknown")))
  }

  /** The alias resolution of lines 34-39. */
  function NormaliseRow(row: Row): RowFields {
    RowFields(RowName(row), Alias(row, TitleAliases), Alias(row, CompanyAliases), Alias(row, LocationAliases),
              Alias(row, LinkedinAliases), Alias(row, ConnectionAliases))
  }

  /**
   * The name never ends up empty: it is `Name` when that is non-empty, else
   * `name`, else the trimmed first and last names, else `Unknown`.
   */
  lemma RowNameSpec(row: Row)
    ensures RowName(row) != ""
    ensures Truthy(Cell(row, "Name")) ==> RowName(row) == row["Name"]
    ensures !Truthy(Cell(row, "Name")) && Truthy(Cell(row, "name")) ==> RowName(row) == row["name"]
    ensures !Truthy(Cell(row, "Name")) && !Truthy(Cell(row, "name")) ==>
              RowName(row) == if ComposedName(row) != "" then ComposedName(row) else "Unknown"
  {
    NameFromSpec(Cell(row, "Name"), Cell(row, "name"), ComposedName(row));
  }

  lemma NameFromSpec(upper: Option<string>, lower: Option<string>, composed: string)
    ensures NameFrom(upper, lower, composed) != ""
    ensures Truthy(upper) ==> NameFrom(upper, lower, composed) == upper.value
    ensures !Truthy(upper) && Truthy(lower) ==> NameFrom(upper, lower, composed) == lower.value
    ensures !Truthy(upper) && !Truthy(lower) ==>
              NameFrom(upper, lower, composed) == if composed != "" then composed else "Unknown"
  {
  }

  /**
   * Each optional field takes the cell of the first alias in its list whose cell
   * is non-empty, and is `null` exactly when every alias is missing or empty.
   */
  lemma AliasSpec(row: Row, aliases: seq<string>)
    ensures Alias(row, aliases).None? <==> forall k :: 0 <= k < |aliases| ==> !Truthy(Cell(row, aliases[k]))
    ensures Alias(row, aliases).Some? ==>
              exists k :: 0 <= k < |aliases| && aliases[k] in row && row[aliases[k]] == Alias(row, aliases).value &&
                          Alias(row, aliases).value != "" &&
                          forall m :: 0 <= m < k ==> !Truthy(Cell(row, aliases[m]))
  {
    var cells := Cells(row, aliases);
    var r := Alias(row, aliases);
    FirstTruthySpec(cells);
    CellsSpec(row, aliases);
    if r.Some? {
      var k :| 0 <= k < |cells| && cells[k] == r && forall m :: 0 <= m < k ==> !Truthy(cells[m]);
      assert aliases[k] in row && row[aliases[k]] == r.value;
    }
  }

  /** What the chain reads of a row. */
  function RowProfile(f: RowFields): Profile {
    Profile(f.name, f.title, f.company, f.linkedinUrl, f.connectionDegree)
  }

  /** The `data` of the one `create` for a row: the full completed payload, or `failed` with no enrichment. */
  function RowDraft(f: RowFields, outcome: Result<Enrichment, StageError>, now: Timestamp): Draft {
    match outcome
    case Success(e) =>
      Draft(f.name, f.title, f.company, f.location, f.linkedinUrl, f.connectionDegree,
            e.contact.email, e.contact.phone, Some(e.augmentation.hierarchy), Some(e.augmentation.emailTemplate),
            Completed, Some(now))
    case Failure(_) =>
      Draft(f.name, f.title, f.company, f.location, f.linkedinUrl, f.connectionDegree,
            None, None, None, None, Failed, None)
  }

  /** The chain run on one row's resolved fields. */
  function RowAttempt(providers: Providers, row: Row): Attempt {
    Enrich(providers, RowProfile(NormaliseRow(row)))
  }

  /** What one turn of the row loop does before its `create`: the `data` to create and the calls made. */
  datatype RowOutcome = RowOutcome(draft: Draft, calls: seq<Call>)

  /** The row step of this route: aliases resolved, the chain run, the `data` built from its outcome. */
  function RowRun(providers: Providers, now: Timestamp): Row -> RowOutcome {
    row => RowOutcome(RowDraft(NormaliseRow(row), RowAttempt(providers, row).outcome, now), RowAttempt(providers, row).calls)
  }

  /** The calls the row loop makes. */
  function RowCalls(run: Row -> RowOutcome, rows: seq<Row>): seq<Call>
    decreases |rows|
  {
    if rows == [] then [] else RowCalls(run, rows[..|rows| - 1]) + run(rows[|rows| - 1]).calls
  }

  /**
   * The leads the row loop creates for `rows`: one per row, in row order, the
   * k-th under id `start + k`.
   */
  function Ingested(run: Row -> RowOutcome, rows: seq<Row>, start: Id): (created: seq<Lead>)
    ensures |created| == |rows|
    decreases |rows|
  {
    if rows == [] then []
    else Ingested(run, rows[..|rows| - 1], start) + [FromDraft(start + |rows| - 1, run(rows[|rows| - 1]).draft)]
  }

  /** The store after the creates of `created`. */
  function AddAll(rows: map<Id, Lead>, created: seq<Lead>): map<Id, Lead>
    decreases |created|
  {
    if created == [] then rows
    else AddAll(rows, created[..|created| - 1])[created[|created| - 1].id := created[|created| - 1]]
  }

  /** The leads of a given status, in order. */
  function WithStatus(leads: seq<Lead>, s: Status): (r: seq<Lead>)
    ensures |r| <= |leads|
    ensures forall k :: 0 <= k < |r| ==> r[k].status == s && r[k] in leads
    decreases |leads|
  {
    if leads == [] then []
    else WithStatus(leads[..|leads| - 1], s) + (if leads[|leads| - 1].status == s then [leads[|leads| - 1]] else [])
  }

  /** The reply body: the counts of the two lists, their sum, and the lists. */
  function Respond(leads: seq<Lead>, failedLeads: seq<Lead>): Summary {
    Summary(|leads|, |failedLeads|, |leads| + |failedLeads|, leads, failedLeads)
  }

  /** The reply for the created leads: `leads` are the completed ones, `failedLeads` the failed ones. */
  function Summarise(created: seq<Lead>): Summary {
    Respond(WithStatus(created, Completed), WithStatus(created, Failed))
  }

  /**
   * POST with the uploaded file. No file, or a file the parser reported errors
   * for, gives 400 and creates nothing. Otherwise each row is created once, in
   * row order, under consecutive ids, and the reply summarises them.
   */
  method Post(store: Store, providers: Providers, upload: Upload, now: Timestamp)
    returns (reply: Reply<Summary>, ghost calls: seq<Call>)
    requires store.Valid()
    modifies store
    ensures store.Valid()
    ensures upload.NoFile? ==>
              reply == Err(400, "No file uploaded") && store.rows == old(store.rows) &&
              store.order == old(store.order) && calls == []
    ensures upload.Parsed? && upload.errorCount > 0 ==>
              reply == Err(400, "Failed to parse CSV") && store.rows == old(store.rows) &&
              store.order == old(store.order) && calls == []
    ensures upload.Parsed? && upload.errorCount == 0 ==>
              var created := Ingested(RowRun(providers, now), upload.rows, old(store.nextId));
              && store.rows == AddAll(old(store.rows), created)
              && store.order == old(store.order) + Ids(created)
              && reply == Ok(Summarise(created))
              && calls == RowCalls(RowRun(providers, now), upload.rows)
  {
    calls := [];
    if upload.NoFile? {
      return Err(400, "No file uploaded"), calls;
    }
    if upload.errorCount > 0 {
      return Err(400, "Failed to parse CSV"), calls;
    }
    var leads, failedLeads;
    RowRunSettles(providers, now);
    leads, failedLeads, calls := IngestRows(store, RowRun(providers, now), upload.rows);
    reply := Ok(Respond(leads, failedLeads));
  }

  /**
   * The row loop: for each row in order, one `create` of the `data` its step
   * builds; the lead goes to `leads` when it is `completed` — its chain
   * succeeded — and to `failedLeads` otherwise.
   */
  method IngestRows(store: Store, run: Row -> RowOutcome, rows: seq<Row>)
    returns (leads: seq<Lead>, failedLeads: seq<Lead>, ghost calls: seq<Call>)
    requires store.Valid()
    requires forall row :: run(row).draft.status != Pending
    modifies store
    ensures store.Valid() && store.nextId == old(store.nextId) + |rows|
    ensures var created := Ingested(run, rows, old(store.nextId));
            && store.rows == AddAll(old(store.rows), created)
            && store.order == old(store.order) + Ids(created)
            && leads == WithStatus(created, Completed) && failedLeads == WithStatus(created, Failed)
            && calls == RowCalls(run, rows)
  {
    ghost var rows0, order0, next0 := store.rows, store.order, store.nextId;
    ghost var created: seq<Lead> := [];
    leads, failedLeads, calls := [], [], [];
    var i := 0;
    while i < |rows|
      invariant 0 <= i <= |rows|
      invariant store.Valid() && store.nextId == next0 + i
      invariant created == Ingested(run, rows[..i], next0)
      invariant store.rows == AddAll(rows0, created)
      invariant store.order == order0 + Ids(created)
      invariant leads == WithStatus(created, Completed) && failedLeads == WithStatus(created, Failed)
      invariant calls == RowCalls(run, rows[..i])
    {
      var out := run(rows[i]);
      RowsSnoc(run, rows, i, next0);
      var l := CreateNext(store, out.draft, rows0, order0, created);
      calls := calls + out.calls;
      StatusSnoc(created, l);
      assert created + [l] == Ingested(run, rows[..i + 1], next0);
      created := created + [l];
      if l.status == Completed {
        leads := leads + [l];
      } else {
        failedLeads := failedLeads + [l];
      }
      i := i + 1;
    }
    assert rows[..i] == rows;
  }

  /** Every row's `data` is `completed` or `failed`, never `pending`. */
  lemma RowRunSettles(providers: Providers, now: Timestamp)
    ensures forall row :: RowRun(providers, now)(row).draft.status != Pending
  {
    forall row ensures RowRun(providers, now)(row).draft.status != Pending {
      var a := RowAttempt(providers, row);
      assert RowRun(providers, now)(row).draft == RowDraft(NormaliseRow(row), a.outcome, now);
    }
  }

  /** One `create` of the row loop, in terms of the leads created before it. */
  method CreateNext(store: Store, d: Draft, ghost rows0: map<Id, Lead>, ghost order0: seq<Id>, ghost created: seq<Lead>)
    returns (l: Lead)
    requires store.Valid() && store.rows == AddAll(rows0, created) && store.order == order0 + Ids(created)
    modifies store
    ensures store.Valid() && store.nextId == old(store.nextId) + 1 && l == FromDraft(old(store.nextId), d)
    ensures store.rows == AddAll(rows0, created + [l]) && store.order == order0 + Ids(created + [l])
  {
    l := store.Create(d);
    StoreSnoc(rows0, created, l);
  }

  /** The k-th lead created is the k-th row's, under id `start + k`. */
  lemma {:induction false} IngestedAt(run: Row -> RowOutcome, rows: seq<Row>, start: Id, k: nat)
    requires k < |rows|
    ensures Ingested(run, rows, start)[k] == FromDraft(start + k, run(rows[k]).draft)
    decreases |rows|
  {
    if k < |rows| - 1 {
      var prefix := rows[..|rows| - 1];
      assert rows[k] == prefix[k];
      IngestedAt(run, prefix, start, k);
    }
  }

  /**
   * Every row is created exactly once and in row order: the k-th lead created
   * has id `start + k` and the k-th row's profile, and is `completed` with the
   * resolver's and the generator's output and the stamp when its chain
   * succeeded, and otherwise `failed` with no email, phone, hierarchy, template
   * or stamp.
   */
  lemma IngestedSpec(providers: Providers, rows: seq<Row>, now: Timestamp, start: Id, k: nat)
    requires k < |rows|
    ensures var l := Ingested(RowRun(providers, now), rows, start)[k];
            var f := NormaliseRow(rows[k]);
            var a := Enrich(providers, RowProfile(f));
            && l.id == start + k
            && l.name == f.name && l.title == f.title && l.company == f.company && l.location == f.location
            && l.linkedinUrl == f.linkedinUrl && l.connectionDegree == f.connectionDegree
            && (l.status == Completed <==> a.outcome.Success?)
            && (l.status == Completed ==>
                  l.email == a.outcome.value.contact.email && l.phone == a.outcome.value.contact.phone &&
                  l.hierarchy == Some(a.outcome.value.augmentation.hierarchy) &&
                  l.emailTemplate == Some(a.outcome.value.augmentation.emailTemplate) &&
                  l.enrichedAt == Some(now))
            && (l.status != Completed ==>
                  l.status == Failed && l.email.None? && l.phone.None? && l.hierarchy.None? &&
                  l.emailTemplate.None? && l.enrichedAt.None?)
  {
    IngestedAt(RowRun(providers, now), rows, start, k);
  }

  /** The calls of the row loop are each row's chain calls, in row order. */
  lemma {:induction false} RowCallsSpec(providers: Providers, rows: seq<Row>, now: Timestamp)
    ensures RowCalls(RowRun(providers, now), rows) == ChainCalls(providers, rows)
    decreases |rows|
  {
    if rows != [] {
      RowCallsSpec(providers, rows[1..], now);
      RowCallsFront(RowRun(providers, now), rows);
    }
  }

  /** The chain calls of each row, first row first. */
  function ChainCalls(providers: Providers, rows: seq<Row>): seq<Call> {
    if rows == [] then [] else RowAttempt(providers, rows[0]).calls + ChainCalls(providers, rows[1..])
  }

  lemma {:induction false} RowCallsFront(run: Row -> RowOutcome, rows: seq<Row>)
    requires rows != []
    ensures RowCalls(run, rows) == run(rows[0]).calls + RowCalls(run, rows[1..])
    decreases |rows|
  {
    if |rows| > 1 {
      var prefix := rows[..|rows| - 1];
      RowCallsFront(run, prefix);
      assert prefix[1..] == rows[1..][..|rows[1..]| - 1];
    } else {
      assert rows[1..] == [];
    }
  }

  /** A lead of one status is never of another, so the two lists split the created leads. */
  lemma {:induction false} StatusCountsSplit(created: seq<Lead>)
    requires forall k :: 0 <= k < |created| ==> created[k].status != Pending
    ensures |WithStatus(created, Completed)| + |WithStatus(created, Failed)| == |created|
    decreases |created|
  {
    if created != [] {
      StatusCountsSplit(created[..|created| - 1]);
    }
  }

  /**
   * The counts: `totalCount` is `enrichedCount + failedCount` and equals the
   * number of rows; each count is the length of its list.
   */
  lemma SummaryCounts(providers: Providers, rows: seq<Row>, now: Timestamp, start: Id)
    ensures var s := Summarise(Ingested(RowRun(providers, now), rows, start));
            && s.totalCount == s.enrichedCount + s.failedCount == |rows|
            && s.enrichedCount == |s.leads| && s.failedCount == |s.failedLeads|
  {
    var created := Ingested(RowRun(providers, now), rows, start);
    forall k | 0 <= k < |created| ensures created[k].status != Pending {
      IngestedAt(RowRun(providers, now), rows, start, k);
    }
    StatusCountsSplit(created);
  }

  lemma RowsSnoc(run: Row -> RowOutcome, rows: seq<Row>, i: nat, start: Id)
    requires i < |rows|
    ensures Ingested(run, rows[..i + 1], start) == Ingested(run, rows[..i], start) + [FromDraft(start + i, run(rows[i]).draft)]
    ensures RowCalls(run, rows[..i + 1]) == RowCalls(run, rows[..i]) + run(rows[i]).calls
  {
    assert rows[..i + 1][..i] == rows[..i];
  }

  lemma StoreSnoc(store0: map<Id, Lead>, before: seq<Lead>, l: Lead)
    ensures AddAll(store0, before + [l]) == AddAll(store0, before)[l.id := l]
    ensures Ids(before + [l]) == Ids(before) + [l.id]
  {
    assert (before + [l])[..|before|] == before;
  }

  lemma StatusSnoc(before: seq<Lead>, l: Lead)
    ensures WithStatus(before + [l], Completed) ==
              WithStatus(before, Completed) + (if l.status == Completed then [l] else [])
    ensures WithStatus(before + [l], Failed) ==
              WithStatus(before, Failed) + (if l.status == Failed then [l] else [])
  {
    assert (before + [l])[..|before|] == before;
  }
}
