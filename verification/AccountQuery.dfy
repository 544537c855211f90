/** `sqlAll` of the account query: the nodes, then every requested edge. */
module AccountQuerying {
  import opened Prelude
  import opened RowCodec
  import opened QuerySpec
  import opened Entities
  import opened Loading
  import opened EagerLoading
  import M2M = LoadM2M
  import M2O = LoadM2O
  import O2M = LoadO2M

  /** The primary key and the proxy of a stored account. */
  function StoredID(row: Row): int {
    match Lookup(row, FieldID) case Int(i) => i case _ => 0
  }

  function StoredProxy(row: Row): Option<int> {
    match Lookup(row, FieldProxyID) case Int(i) => Some(i) case _ => None
  }

  function StoredIDs(rows: seq<Row>): (ids: seq<int>)
    ensures |ids| == |rows| && forall i :: 0 <= i < |rows| ==> ids[i] == StoredID(rows[i])
  {
    seq(|rows|, i requires 0 <= i < |rows| => StoredID(rows[i]))
  }

  function StoredProxies(rows: seq<Row>): (fks: seq<Option<int>>)
    ensures |fks| == |rows| && forall i :: 0 <= i < |rows| ==> fks[i] == StoredProxy(rows[i])
  {
    seq(|rows|, i requires 0 <= i < |rows| => StoredProxy(rows[i]))
  }

  /** The database keeps to the schema's types. */
  ghost predicate AllWellTyped(rows: seq<Row>) {
    forall i :: 0 <= i < |rows| ==> WellTyped(rows[i])
  }

  /** The fields of the nodes are those of the rows, as far as they were selected. */
  ghost predicate AllDecoded(nodes: seq<Account>, js: JsonCodec, columns: seq<Column>, rows: seq<Row>)
    requires AllWellTyped(rows)
    reads nodes`ID, nodes`CreatedAt, nodes`UpdatedAt, nodes`Name, nodes`Notes
    reads nodes`Credentials, nodes`ProxyID, nodes`Schedulable, nodes`selectValues
  {
    |nodes| == |rows| && forall i :: 0 <= i < |nodes| ==> DecodeRow(js, columns, rows[i]) == Ok(nodes[i].Row())
  }

  /** No two nodes share a cell. */
  ghost predicate Unaliased(nodes: seq<Account>)
    reads nodes`Notes, nodes`ProxyID
  {
    forall i, j :: 0 <= i < j < |nodes| ==> Apart(nodes[i], nodes[j])
  }

  ghost predicate Apart(x: Account, y: Account)
    reads x`Notes, x`ProxyID, y`Notes, y`ProxyID
  {
    (x.Notes != null ==> x.Notes != y.Notes) && (x.ProxyID != null ==> x.ProxyID != y.ProxyID)
  }

  /** The node and its cells are new. */
  twostate predicate New(new node: Account)
    reads node`Notes, node`ProxyID
  {
    fresh(node) && (node.Notes != null ==> fresh(node.Notes)) && (node.ProxyID != null ==> fresh(node.ProxyID))
  }

  /** Reading fails with the error of the first row that does not decode. */
  function ReadError(js: JsonCodec, columns: seq<Column>, rows: seq<Row>): Option<AssignError>
    requires AllWellTyped(rows)
  {
    if rows == [] then None
    else
      match DecodeRow(js, columns, rows[0])
      case Err(e) => Some(e)
      case Ok(_) => ReadError(js, columns, rows[1..])
  }

  lemma {:induction false} ReadErrorAt(js: JsonCodec, columns: seq<Column>, rows: seq<Row>, k: nat)
    requires AllWellTyped(rows)
    requires k <= |rows| && forall i :: 0 <= i < k ==> DecodeRow(js, columns, rows[i]).Ok?
    requires k < |rows| ==> DecodeRow(js, columns, rows[k]).Err?
    ensures ReadError(js, columns, rows) == if k < |rows| then Some(DecodeRow(js, columns, rows[k]).error) else None
  {
    if k > 0 {
      ReadErrorAt(js, columns, rows[1..], k - 1);
    }
  }

  /** The assign callback of `sqlAll`. */
  method ReadNode(js: JsonCodec, columns: seq<Column>, row: Row, loadedTypes: seq<bool>)
    returns (node: Account, err: Option<AssignError>)
    requires WellTyped(row)
    ensures New(node) && node.Proxy == null && node.loadedTypes == loadedTypes
    ensures match DecodeRow(js, columns, row)
            case Err(e) => err == Some(e)
            case Ok(w) => err.None? && node.Row() == w
  {
    node := new Account();
    node.loadedTypes := loadedTypes;
    err := node.AssignValues(js, columns, Fetched(columns, row));
  }

  /** The nodes read from the first rows. */
  ghost predicate ReadSoFar(nodes: seq<Account>, js: JsonCodec, columns: seq<Column>, rows: seq<Row>,
                            loadedTypes: seq<bool>)
    requires AllWellTyped(rows)
    reads nodes
  {
    && |nodes| <= |rows| && Marked(nodes, loadedTypes) && Unaliased(nodes)
    && forall i :: 0 <= i < |nodes| ==> DecodeRow(js, columns, rows[i]) == Ok(nodes[i].Row()) && nodes[i].Proxy == null
  }

  lemma {:induction false} Appended(nodes: seq<Account>, node: Account, js: JsonCodec, columns: seq<Column>,
                                    rows: seq<Row>, loadedTypes: seq<bool>)
    requires AllWellTyped(rows) && ReadSoFar(nodes, js, columns, rows, loadedTypes) && |nodes| < |rows|
    requires node !in nodes && node.loadedTypes == loadedTypes && node.Proxy == null
    requires DecodeRow(js, columns, rows[|nodes|]) == Ok(node.Row())
    requires forall i :: 0 <= i < |nodes| ==> Apart(nodes[i], node)
    ensures ReadSoFar(nodes + [node], js, columns, rows, loadedTypes)
  {
  }

  /** `sqlgraph.QueryNodes` with the scan and assign callbacks of `sqlAll`. */
  method ReadNodes(js: JsonCodec, columns: seq<Column>, rows: seq<Row>, loadedTypes: seq<bool>)
    returns (nodes: seq<Account>, err: Option<AssignError>)
    requires AllWellTyped(rows) && |loadedTypes| == 3
    ensures err == ReadError(js, columns, rows)
    ensures forall i :: 0 <= i < |nodes| ==> New(nodes[i])
    ensures ReadSoFar(nodes, js, columns, rows, loadedTypes) && (err.None? ==> |nodes| == |rows|)
  {
    nodes := [];
    for k := 0 to |rows|
      invariant |nodes| == k && ReadSoFar(nodes, js, columns, rows, loadedTypes)
      invariant forall i :: 0 <= i < k ==> New(nodes[i])
    {
      var node, e := ReadNode(js, columns, rows[k], loadedTypes);
      if e.Some? {
        ReadErrorAt(js, columns, rows, k);
        return nodes, e;
      }
      Appended(nodes, node, js, columns, rows, loadedTypes);
      nodes := nodes + [node];
    }
    ReadErrorAt(js, columns, rows, |rows|);
    return nodes, None;
  }

  /** What the edges are joined by is read whatever fields are selected. */
  lemma {:induction false} KeysAreRead(js: JsonCodec, fields: seq<Column>, withProxy: bool, row: Row, node: AccountRow)
    requires WellTyped(row)
    requires var columns := ColumnsOf(ACCOUNT_COLUMNS, true, fields, if withProxy then [FieldProxyID] else []);
             DecodeRow(js, columns, row) == Ok(node)
    ensures node.ID == StoredID(row)
    ensures withProxy ==> node.ProxyID == StoredProxy(row)
  {
    var fks := if withProxy then [FieldProxyID] else [];
    var columns := ColumnsOf(ACCOUNT_COLUMNS, true, fields, fks);
    if fields != [] {
      ProjectionKeepsKeys(ACCOUNT_COLUMNS, true, fields, fks);
    }
    assert Fits(AccountKind(FieldID), Lookup(row, FieldID));
    assert Fits(AccountKind(FieldProxyID), Lookup(row, FieldProxyID));
    DecodedField(js, columns, row, FieldID);
    DecodedField(js, columns, row, FieldProxyID);
    assert withProxy ==> FieldProxyID in fks;
    assert FieldProxyID in ACCOUNT_COLUMNS by { assert ACCOUNT_COLUMNS[6] == FieldProxyID; }
    assert FieldID in ACCOUNT_COLUMNS by { assert ACCOUNT_COLUMNS[0] == FieldID; }
  }

  // ------------------------------------------------------------------------
  // sqlAll
  // ------------------------------------------------------------------------

  /** The account query builder. `rows` is what the database returns for it and
      `js` the JSON codec its rows are read with. */
  class AccountQuery {
    var Fields: seq<Column>
    var withGroups: M2M.GroupQuery?
    var withProxy: M2O.ProxyQuery?
    var withUsageLogs: O2M.UsageLogQuery?
    const js: JsonCodec
    const rows: Result<seq<Row>, LoadError>

    constructor (js: JsonCodec, rows: Result<seq<Row>, LoadError>)
      ensures this.js == js && this.rows == rows
      ensures Fields == [] && withGroups == null && withProxy == null && withUsageLogs == null
    {
      Fields, withGroups, withProxy, withUsageLogs := [], null, null, null;
      this.js, this.rows := js, rows;
    }

    function Columns(): seq<Column>
      reads this
    {
      ColumnsOf(ACCOUNT_COLUMNS, true, Fields, if withProxy != null then [FieldProxyID] else [])
    }

    function Edges(): Children
      reads this
    {
      Children(withGroups, withProxy, withUsageLogs)
    }

    /** The predicates and fields of the child queries. */
    function State(): QueryState
      reads this, withGroups, withProxy, withUsageLogs
    {
      StateOf(Edges())
    }

    /** What `sqlAll` reads before it loads any edge. */
    function ReadFailure(): Option<LoadError>
      requires AllWellTyped(StoredRows())
      reads this
    {
      if rows.Err? then Some(rows.error)
      else
        match ReadError(js, Columns(), rows.value)
        case Some(e) => Some(ScanError(e))
        case None => None
    }

    /** The nodes decode the rows and share no cells. */
    ghost predicate ReadBack(nodes: seq<Account>, columns: seq<Column>)
      requires AllWellTyped(StoredRows())
      reads nodes`ID, nodes`CreatedAt, nodes`UpdatedAt, nodes`Name, nodes`Notes
      reads nodes`Credentials, nodes`ProxyID, nodes`Schedulable, nodes`selectValues
    {
      AllDecoded(nodes, js, columns, StoredRows()) && Unaliased(nodes)
    }

    /** The same of snapshots. */
    ghost predicate Decoded(snapshots: seq<Snapshot>, columns: seq<Column>)
      requires AllWellTyped(StoredRows())
    {
      && |snapshots| == |StoredRows()|
      && (forall i :: 0 <= i < |snapshots| ==> DecodeRow(js, columns, StoredRows()[i]) == Ok(snapshots[i].row))
      && (forall i, j :: 0 <= i < j < |snapshots| ==> SnapshotsApart(snapshots[i], snapshots[j]))
    }

    ghost predicate SnapshotsApart(x: Snapshot, y: Snapshot) {
      (x.notes != null ==> x.notes != y.notes) && (x.proxyID != null ==> x.proxyID != y.proxyID)
    }

    lemma {:induction false} SnapshotsDecode(nodes: seq<Account>, columns: seq<Column>, snapshots: seq<Snapshot>)
      requires AllWellTyped(StoredRows()) && ReadBack(nodes, columns) && Holding(nodes, snapshots)
      ensures Decoded(snapshots, columns)
    {
    }

    lemma {:induction false} StillReadBack(nodes: seq<Account>, columns: seq<Column>, snapshots: seq<Snapshot>)
      requires AllWellTyped(StoredRows()) && Decoded(snapshots, columns) && Holding(nodes, snapshots)
      ensures ReadBack(nodes, columns)
    {
    }

    /** The nodes are ready for their edges: marked, without a proxy, and with the
        stored keys in their fields. */
    ghost predicate Ready(nodes: seq<Account>, loadedTypes: seq<bool>)
      reads nodes, this
    {
      && Marked(nodes, loadedTypes) && loadedTypes == [withGroups != null, withProxy != null, withUsageLogs != null]
      && NoProxies(nodes)
      && IDs(nodes) == StoredIDs(StoredRows())
      && (withProxy != null ==> M2O.ForeignKeys(nodes) == StoredProxies(StoredRows()))
    }

    method ReadAll(loadedTypes: seq<bool>) returns (r: Result<seq<Account>, LoadError>)
      requires AllWellTyped(StoredRows())
      requires loadedTypes == [withGroups != null, withProxy != null, withUsageLogs != null]
      ensures match ReadFailure() case Some(e) => r == Err(e) case None => r.Ok?
      ensures r.Ok? ==>
                && rows.Ok? && ReadBack(r.value, Columns()) && Ready(r.value, loadedTypes)
                && forall i :: 0 <= i < |r.value| ==> fresh(r.value[i])
    {
      var columns := BuildColumns(ACCOUNT_COLUMNS, Fields, if withProxy != null then [FieldProxyID] else []);
      if rows.Err? {
        return Err(rows.error);
      }
      var nodes, failed := ReadNodes(js, columns, rows.value, loadedTypes);
      if failed.Some? {
        return Err(ScanError(failed.value));
      }
      ReadKeys(js, Fields, withProxy != null, rows.value, nodes);
      return Ok(nodes);
    }

    /** The rows the database returns, if it does. */
    function StoredRows(): seq<Row> {
      if rows.Ok? then rows.value else []
    }

    /** The error of loading the requested edges through child queries in this state:
        that of the first edge that fails, in the order they are loaded. */
    function EdgeError(s: QueryState): Option<LoadError>
      reads this
    {
      FirstError(Edges(), s, StoredIDs(StoredRows()), StoredProxies(StoredRows()))
    }

    /** Every accessor of every node answers as the stored rows demand. */
    ghost predicate AllAnswer(nodes: seq<Account>, s: QueryState)
      reads this, nodes`Groups, nodes`Proxy, nodes`UsageLogs, nodes`loadedTypes
    {
      var ids, fks := StoredIDs(StoredRows()), StoredProxies(StoredRows());
      AnswersAre(nodes, Edges(), ids, fks, AllAsked(Edges(), s, ids, fks))
    }

    /** The result of `sqlAll`, given what reading the nodes stops with, the columns
        read and the state of the child queries before. After success every node
        decodes its row, shares no cell with another, and every accessor answers as
        the stored rows demand. */
    ghost predicate Answered(r: Result<seq<Account>, LoadError>, failure: Option<LoadError>, columns: seq<Column>,
                             s: QueryState)
      requires AllWellTyped(StoredRows())
      reads this, if r.Ok? then r.value else []
    {
      if failure.Some? then r == Err(failure.value)
      else if StoredRows() != [] && EdgeError(s).Some? then r == Err(EdgeError(s).value)
      else r.Ok? && ReadBack(r.value, columns) && AllAnswer(r.value, s)
    }

    /** The state `sqlAll` leaves the child queries in: nothing is asked without
        nodes, and otherwise every query reached keeps what it was asked. */
    function LeftState(failure: Option<LoadError>, s: QueryState): QueryState
      reads this
    {
      if failure.Some? || StoredRows() == [] then s
      else Left(Edges(), s, StoredIDs(StoredRows()), StoredProxies(StoredRows()))
    }

    /** The first `k` rows decode. */
    ghost predicate AllRead(columns: seq<Column>, k: nat)
      requires AllWellTyped(StoredRows()) && k <= |StoredRows()|
    {
      forall i :: 0 <= i < k ==> DecodeRow(js, columns, StoredRows()[i]).Ok?
    }

    /** When `sqlAll` succeeds: the query's error is returned, no row is no error, the
        first row that does not decode decides the error, and when all decode and no
        requested edge fails there is a node for every row. */
    ghost predicate Decided(r: Result<seq<Account>, LoadError>, columns: seq<Column>, s: QueryState)
      requires AllWellTyped(StoredRows())
      reads this
    {
      && (rows.Err? ==> r == Err(rows.error))
      && (rows == Ok([]) ==> r == Ok([]))
      && (forall k :: 0 <= k < |StoredRows()| && AllRead(columns, k) ==>
            var read := DecodeRow(js, columns, StoredRows()[k]);
            read.Err? ==> r == Err(ScanError(read.error)))
      && (rows.Ok? && AllRead(columns, |rows.value|) && EdgeError(s).None? ==> r.Ok? && |r.value| == |rows.value|)
    }

    lemma {:induction false} AnswerIsDecided(r: Result<seq<Account>, LoadError>, failure: Option<LoadError>,
                                             columns: seq<Column>, s: QueryState)
      requires AllWellTyped(StoredRows()) && columns == Columns() && failure == ReadFailure()
      requires Answered(r, failure, columns, s)
      ensures Decided(r, columns, s)
    {
      forall k | 0 <= k <= |StoredRows()| && AllRead(columns, k) &&
                 (k < |StoredRows()| ==> DecodeRow(js, columns, StoredRows()[k]).Err?)
        ensures ReadError(js, columns, StoredRows()) ==
                if k < |StoredRows()| then Some(DecodeRow(js, columns, StoredRows()[k]).error) else None
      {
        ReadErrorAt(js, columns, StoredRows(), k);
      }
    }

    /** `sqlAll`. The result is given by the stored rows and the state of the child
        queries, whatever fields are selected, and that state afterwards is given too. */
    method SqlAll() returns (r: Result<seq<Account>, LoadError>)
      requires AllWellTyped(StoredRows())
      modifies GroupsQuery(withGroups)`Predicates, ProxyQuery(withProxy)`Predicates
      modifies LogQuery(withUsageLogs)`Fields, LogQuery(withUsageLogs)`Predicates
      ensures Answered(r, old(ReadFailure()), old(Columns()), old(State()))
      ensures Decided(r, old(Columns()), old(State()))
      ensures State() == LeftState(old(ReadFailure()), old(State()))
    {
      ghost var failure, columns, s := ReadFailure(), Columns(), State();
      r := ReadAndLoad(failure, columns, s);
      AnswerIsDecided(r, failure, columns, s);
    }

    method ReadAndLoad(ghost failure: Option<LoadError>, ghost columns: seq<Column>, ghost s: QueryState)
      returns (r: Result<seq<Account>, LoadError>)
      requires AllWellTyped(StoredRows()) && failure == ReadFailure() && columns == Columns() && s == State()
      modifies GroupsQuery(withGroups)`Predicates, ProxyQuery(withProxy)`Predicates
      modifies LogQuery(withUsageLogs)`Fields, LogQuery(withUsageLogs)`Predicates
      ensures Answered(r, failure, columns, s)
      ensures State() == LeftState(failure, s)
    {
      var loadedTypes := [withGroups != null, withProxy != null, withUsageLogs != null];
      r := ReadAll(loadedTypes);
      if r.Ok? {
        r := LoadIfAny(r.value, loadedTypes, columns, s);
      }
    }

    /** The nodes with their edges; without nodes nothing is loaded. */
    method LoadIfAny(nodes: seq<Account>, ghost loadedTypes: seq<bool>, ghost columns: seq<Column>, ghost s: QueryState)
      returns (r: Result<seq<Account>, LoadError>)
      requires AllWellTyped(StoredRows()) && ReadBack(nodes, columns) && Ready(nodes, loadedTypes) && s == State()
      modifies nodes`Groups, nodes`Proxy, nodes`UsageLogs
      modifies GroupsQuery(withGroups)`Predicates, ProxyQuery(withProxy)`Predicates
      modifies LogQuery(withUsageLogs)`Fields, LogQuery(withUsageLogs)`Predicates
      ensures Answered(r, None, columns, s) && State() == LeftState(None, s)
    {
      r := Ok(nodes);
      if |nodes| > 0 {
        var err := LoadRead(nodes, loadedTypes, columns, s);
        if err.Some? {
          r := Err(err.value);
        }
      }
    }

    /** Loads the edges of nodes just read. */
    method LoadRead(nodes: seq<Account>, ghost loadedTypes: seq<bool>, ghost columns: seq<Column>, ghost s: QueryState)
      returns (err: Option<LoadError>)
      requires AllWellTyped(StoredRows()) && ReadBack(nodes, columns) && Ready(nodes, loadedTypes) && s == State()
      modifies nodes`Groups, nodes`Proxy, nodes`UsageLogs
      modifies GroupsQuery(withGroups)`Predicates, ProxyQuery(withProxy)`Predicates
      modifies LogQuery(withUsageLogs)`Fields, LogQuery(withUsageLogs)`Predicates
      ensures ReadBack(nodes, columns) && (nodes != [] ==> State() == LeftState(None, s))
      ensures err == EdgeError(s) && (err.None? ==> AllAnswer(nodes, s))
    {
      ghost var snapshots := Snapshots(nodes);
      SnapshotsDecode(nodes, columns, snapshots);
      err := LoadInto(nodes, loadedTypes, s, snapshots);
      StillReadBack(nodes, columns, snapshots);
    }

    method LoadInto(nodes: seq<Account>, ghost loadedTypes: seq<bool>, ghost s: QueryState,
                    ghost snapshots: seq<Snapshot>)
      returns (err: Option<LoadError>)
      requires Ready(nodes, loadedTypes) && Holding(nodes, snapshots) && s == State()
      modifies nodes`Groups, nodes`Proxy, nodes`UsageLogs
      modifies GroupsQuery(withGroups)`Predicates, ProxyQuery(withProxy)`Predicates
      modifies LogQuery(withUsageLogs)`Fields, LogQuery(withUsageLogs)`Predicates
      ensures Holding(nodes, snapshots) && (nodes != [] ==> State() == LeftState(None, s))
      ensures err == EdgeError(s) && (err.None? ==> AllAnswer(nodes, s))
    {
      ghost var plan := PlanOf(loadedTypes, snapshots, s);
      ReadyIsPlanned(nodes, loadedTypes, snapshots, s);
      err := LoadEdges(nodes, Edges(), plan);
      StateIsLeft(nodes, Edges(), plan);
    }

    ghost function PlanOf(loadedTypes: seq<bool>, snapshots: seq<Snapshot>, s: QueryState): Plan
      reads this
    {
      var ids, fks, c := StoredIDs(StoredRows()), StoredProxies(StoredRows()), Edges();
      Plan(ids, fks, loadedTypes, snapshots, c, s, AllAsked(c, s, ids, fks),
           GroupsError(c, s, ids), ProxyError(c, s, fks), LogsError(c, s, ids))
    }

    lemma {:induction false} ReadyIsPlanned(nodes: seq<Account>, loadedTypes: seq<bool>, snapshots: seq<Snapshot>,
                                            s: QueryState)
      requires Ready(nodes, loadedTypes) && Holding(nodes, snapshots) && s == State()
      ensures var plan := PlanOf(loadedTypes, snapshots, s);
              && Planned(nodes, plan) && Normal(plan.c, s) && NoProxies(nodes)
              && GroupsIn(plan.c.groups, s) && ProxyIn(plan.c.proxy, s) && LogsIn(plan.c.logs, s)
    {
      var plan := PlanOf(loadedTypes, snapshots, s);
      assert |StoredIDs(StoredRows())| == |StoredProxies(StoredRows())|;
      forall i | 0 <= i < |nodes|
        ensures Shows(snapshots[i], plan, i)
      {
        assert IDs(nodes)[i] == nodes[i].ID;
        assert withProxy != null ==> M2O.ForeignKeys(nodes)[i] == nodes[i].ForeignKey();
      }
    }
  }

  /** Calling `All` twice on one query. If groups were requested, the fields they
      select are valid and there are accounts, the second call asks for both lists of
      IDs and panics on the first row it is answered. */
  method SqlAllTwice(q: AccountQuery)
    returns (first: Result<seq<Account>, LoadError>, second: Result<seq<Account>, LoadError>)
    requires AllWellTyped(q.StoredRows())
    modifies GroupsQuery(q.withGroups)`Predicates, ProxyQuery(q.withProxy)`Predicates
    modifies LogQuery(q.withUsageLogs)`Fields, LogQuery(q.withUsageLogs)`Predicates
    ensures q.withGroups != null && old(q.ReadFailure()).None? && q.StoredRows() != [] ==>
              SecondCall(second, q.withGroups, old(q.State()), StoredIDs(q.StoredRows()))
  {
    ghost var s, failure, columns := q.State(), q.ReadFailure(), q.Columns();
    first := q.SqlAll();
    assert q.ReadFailure() == failure && q.Columns() == columns;
    second := q.SqlAll();
    if q.withGroups != null && failure.None? && q.StoredRows() != [] {
      SecondAnswer(q, second, columns, s);
    }
  }

  lemma {:induction false} SecondAnswer(q: AccountQuery, r: Result<seq<Account>, LoadError>, columns: seq<Column>,
                                        s: QueryState)
    requires AllWellTyped(q.StoredRows()) && q.withGroups != null && q.StoredRows() != []
    requires q.Answered(r, None, columns, q.LeftState(None, s))
    ensures SecondCall(r, q.withGroups, s, StoredIDs(q.StoredRows()))
  {
    SecondGroupsError(q.Edges(), s, StoredIDs(q.StoredRows()), StoredProxies(q.StoredRows()));
  }

  /** What the groups make of a second call. */
  ghost predicate SecondCall(r: Result<seq<Account>, LoadError>, groups: M2M.GroupQuery, s: QueryState, ids: seq<int>) {
    var again := s.groups + [Among(ids)] + [Among(ids)];
    match InvalidField(M2M.GROUP_COLUMNS, s.groupFields)
    case Some(f) => r == Err(ValidationError(f))
    case None =>
      match groups.join(again)
      case Err(e) => r == Err(e)
      case Ok(rows) => rows != [] ==> r == Err(FailedAssertion)
  }

  lemma {:induction false} ReadKeys(js: JsonCodec, fields: seq<Column>, withProxy: bool, rows: seq<Row>,
                                    nodes: seq<Account>)
    requires AllWellTyped(rows)
    requires var fks := if withProxy then [FieldProxyID] else [];
             AllDecoded(nodes, js, ColumnsOf(ACCOUNT_COLUMNS, true, fields, fks), rows)
    ensures IDs(nodes) == StoredIDs(rows)
    ensures withProxy ==> M2O.ForeignKeys(nodes) == StoredProxies(rows)
  {
    forall i | 0 <= i < |nodes|
      ensures nodes[i].ID == StoredID(rows[i])
      ensures withProxy ==> nodes[i].ForeignKey() == StoredProxy(rows[i])
    {
      KeysAreRead(js, fields, withProxy, rows[i], nodes[i].Row());
    }
  }
}
