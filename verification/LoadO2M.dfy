/** Eager loading of a one-to-many edge whose children must have a parent:
    `loadUsageLogs` of the account query. */
module LoadO2M {
  import opened Prelude
  import opened RowCodec
  import opened QuerySpec
  import opened Entities
  import opened Loading

  // ------------------------------------------------------------------------
  // Specification: children by the foreign keys they carry
  // ------------------------------------------------------------------------

  /** The children of `id`, in result order. */
  function ChildrenOf<T>(items: seq<T>, fks: seq<Option<int>>, id: int): seq<T>
    requires |items| == |fks|
  {
    if items == [] then []
    else
      var k := |items| - 1;
      ChildrenOf(items[..k], fks[..k], id) + if fks[k] == Some(id) then [items[k]] else []
  }

  /** Every child has a known parent. */
  ghost predicate Parented(fks: seq<Option<int>>, ids: seq<int>) {
    forall fk <- fks :: fk.Some? && fk.value in ids
  }

  /** Child `k` is the first without a known parent, or there is none and `k` counts them all. */
  ghost predicate StopsAt(fks: seq<Option<int>>, ids: seq<int>, k: nat) {
    && k <= |fks|
    && Parented(fks[..k], ids)
    && (k < |fks| ==> fks[k].None? || fks[k].value !in ids)
  }

  lemma {:induction false} ChildrenOfExtended<T>(items: seq<T>, fks: seq<Option<int>>, id: int, k: nat)
    requires k < |items| == |fks|
    ensures ChildrenOf(items[..k+1], fks[..k+1], id) ==
            ChildrenOf(items[..k], fks[..k], id) + if fks[k] == Some(id) then [items[k]] else []
  {
    assert items[..k+1][..k] == items[..k] && fks[..k+1][..k] == fks[..k];
  }

  lemma {:induction false} ChildrenOfMore<T>(items: seq<T>, fks: seq<Option<int>>, item: T, fk: Option<int>, id: int)
    requires |items| == |fks|
    ensures ChildrenOf(items + [item], fks + [fk], id) ==
            ChildrenOf(items, fks, id) + if fk == Some(id) then [item] else []
  {
    assert (items + [item])[..|items|] == items && (fks + [fk])[..|fks|] == fks;
  }

  /** The positions of the children whose foreign key is `id`. */
  function ChildrenAt(fks: seq<Option<int>>, id: int): (at: seq<nat>)
    ensures forall i :: 0 <= i < |at| ==> at[i] < |fks| && fks[at[i]] == Some(id)
  {
    if fks == [] then []
    else
      var k := |fks| - 1;
      ChildrenAt(fks[..k], id) + if fks[k] == Some(id) then [k] else []
  }

  lemma {:induction false} ChildrenAtComplete(fks: seq<Option<int>>, id: int)
    ensures var at := ChildrenAt(fks, id);
            && (forall i, j :: 0 <= i < j < |at| ==> at[i] < at[j])
            && (forall k :: 0 <= k < |fks| && fks[k] == Some(id) ==> exists i :: 0 <= i < |at| && at[i] == k)
  {
    if fks != [] {
      var last := |fks| - 1;
      ChildrenAtComplete(fks[..last], id);
      var before, at := ChildrenAt(fks[..last], id), ChildrenAt(fks, id);
      forall k | 0 <= k < |fks| && fks[k] == Some(id)
        ensures exists i :: 0 <= i < |at| && at[i] == k
      {
        if k < last {
          assert fks[..last][k] == Some(id);
          var i :| 0 <= i < |before| && before[i] == k;
          assert at[i] == k;
        } else {
          assert at[|before|] == k;
        }
      }
    }
  }

  lemma {:induction false} ChildrenArePicked<T>(items: seq<T>, fks: seq<Option<int>>, id: int)
    requires |items| == |fks|
    ensures var at := ChildrenAt(fks, id);
            |ChildrenOf(items, fks, id)| == |at| &&
            forall j :: 0 <= j < |at| ==> ChildrenOf(items, fks, id)[j] == items[at[j]]
  {
    if items != [] {
      ChildrenArePicked(items[..|items|-1], fks[..|items|-1], id);
    }
  }

  /** The children of a parent are a stable selection: exactly those whose foreign
      key is its ID, at increasing positions of the result. */
  lemma {:induction false} ChildrenAreStable<T>(items: seq<T>, fks: seq<Option<int>>, id: int)
    requires |items| == |fks|
    ensures var at, held := ChildrenAt(fks, id), ChildrenOf(items, fks, id);
            && |held| == |at|
            && (forall j :: 0 <= j < |at| ==> at[j] < |fks| && fks[at[j]] == Some(id) && held[j] == items[at[j]])
            && (forall k :: 0 <= k < |fks| && fks[k] == Some(id) ==> exists i :: 0 <= i < |at| && at[i] == k)
            && (forall i, j :: 0 <= i < j < |at| ==> at[i] < at[j])
  {
    ChildrenAtComplete(fks, id);
    ChildrenArePicked(items, fks, id);
  }

  /** Lengths of the child lists of some parents, summed. */
  function TotalChildren<T>(items: seq<T>, fks: seq<Option<int>>, ids: seq<int>): nat
    requires |items| == |fks|
  {
    if ids == [] then 0
    else TotalChildren(items, fks, ids[..|ids|-1]) + |ChildrenOf(items, fks, ids[|ids|-1])|
  }

  lemma {:induction false} TotalChildrenExtended<T>(items: seq<T>, fks: seq<Option<int>>, ids: seq<int>)
    requires |items| == |fks| && items != [] && NoDup(ids)
    ensures var k := |items| - 1;
            TotalChildren(items, fks, ids) ==
            TotalChildren(items[..k], fks[..k], ids) + if fks[k].Some? && fks[k].value in ids then 1 else 0
  {
    if ids != [] {
      TotalChildrenExtended(items, fks, ids[..|ids|-1]);
      assert ids == ids[..|ids|-1] + [ids[|ids|-1]];
    }
  }

  lemma {:induction false} NoChildren<T>(items: seq<T>, fks: seq<Option<int>>, ids: seq<int>)
    requires |items| == |fks| == 0
    ensures TotalChildren(items, fks, ids) == 0
  {
    if ids != [] {
      NoChildren(items, fks, ids[..|ids|-1]);
    }
  }

  /** No child is lost or duplicated: over distinct parents the lists together
      have exactly as many entries as there are children with a known parent. */
  lemma {:induction false} ChildrenConserved<T>(items: seq<T>, fks: seq<Option<int>>, ids: seq<int>)
    requires |items| == |fks| && NoDup(ids) && Parented(fks, ids)
    ensures TotalChildren(items, fks, ids) == |items|
    decreases |items|
  {
    if items == [] {
      NoChildren(items, fks, ids);
    } else {
      var k := |items| - 1;
      ChildrenConserved(items[..k], fks[..k], ids);
      TotalChildrenExtended(items, fks, ids);
    }
  }

  // ------------------------------------------------------------------------
  // loadUsageLogs
  // ------------------------------------------------------------------------

  datatype UsageLogRecord = UsageLogRecord(id: int, accountID: int)

  const USAGE_LOG_COLUMNS: seq<Column> := [FieldID, FieldAccountID, FieldCreatedAt]

  /** The usage-log query as the loader uses it. `rows` is what the database
      returns for its predicates. */
  class UsageLogQuery {
    var Fields: seq<Column>
    var Predicates: seq<Predicate>
    const rows: seq<Predicate> -> Result<seq<UsageLogRecord>, LoadError>

    constructor (fields: seq<Column>, rows: seq<Predicate> -> Result<seq<UsageLogRecord>, LoadError>)
      ensures Fields == fields && Predicates == [] && this.rows == rows
    {
      Fields, Predicates := fields, [];
      this.rows := rows;
    }

    /** Decodes the selected columns only: without its column the foreign key stays zero. */
    method All() returns (r: Result<seq<UsageLog>, LoadError>)
      ensures match Answer(rows, Predicates, Fields)
              case Err(e) => r == Err(e)
              case Ok(records) =>
                r.Ok? && DecodedFrom(r.value, records, FieldAccountID in ColumnsOf(USAGE_LOG_COLUMNS, true, Fields, []))
    {
      var invalid := InvalidField(USAGE_LOG_COLUMNS, Fields);
      if invalid.Some? {
        return Err(ValidationError(invalid.value));
      }
      var columns := BuildColumns(USAGE_LOG_COLUMNS, Fields, []);
      var fetched := rows(Predicates);
      if fetched.Err? {
        return Err(fetched.error);
      }
      var records, nodes := fetched.value, [];
      for i := 0 to |records|
        invariant DecodedFrom(nodes, records[..i], FieldAccountID in columns)
      {
        var node := new UsageLog(records[i].id, if FieldAccountID in columns then records[i].accountID else 0);
        nodes := nodes + [node];
      }
      assert records[..|records|] == records;
      return Ok(nodes);
    }
  }

  /** What `All` answers, as records. */
  function Answer(rows: seq<Predicate> -> Result<seq<UsageLogRecord>, LoadError>, predicates: seq<Predicate>,
                  fields: seq<Column>)
    : Result<seq<UsageLogRecord>, LoadError>
  {
    match InvalidField(USAGE_LOG_COLUMNS, fields)
    case Some(f) => Err(ValidationError(f))
    case None => rows(predicates)
  }

  ghost predicate DecodedFrom(logs: seq<UsageLog>, records: seq<UsageLogRecord>, withKey: bool) {
    |logs| == |records| &&
    forall i :: 0 <= i < |logs| ==>
      logs[i].ID == records[i].id && logs[i].AccountID == if withKey then records[i].accountID else 0
  }

  function LogKeys(logs: seq<UsageLog>): (fks: seq<Option<int>>)
    ensures |fks| == |logs| && forall i :: 0 <= i < |logs| ==> fks[i] == Some(logs[i].AccountID)
  {
    seq(|logs|, i requires 0 <= i < |logs| => Some(logs[i].AccountID))
  }

  function RecordKeys(records: seq<UsageLogRecord>): (fks: seq<Option<int>>)
    ensures |fks| == |records| && forall i :: 0 <= i < |records| ==> fks[i] == Some(records[i].accountID)
  {
    seq(|records|, i requires 0 <= i < |records| => Some(records[i].accountID))
  }

  /** The edge once `k` children were attached: the node that owns its ID holds
      its children among them, a node shadowed by a later one with the same ID none. */
  ghost predicate UsageLogsLoaded(nodes: seq<Account>, ids: seq<int>, logs: seq<UsageLog>, k: nat)
    requires |nodes| == |ids| && k <= |logs|
    reads nodes`UsageLogs
  {
    forall i :: 0 <= i < |nodes| ==>
      nodes[i].UsageLogs ==
      if Owner(nodes, ids, ids[i]) == Some(nodes[i]) then ChildrenOf(logs[..k], LogKeys(logs)[..k], ids[i]) else []
  }

  method IndexParents(nodes: seq<Account>) returns (fks: seq<int>, nodeids: map<int, Account>)
    modifies nodes`UsageLogs
    ensures fks == IDs(nodes) && IndexedByID(nodeids, nodes, fks)
    ensures forall x <- nodes :: x.UsageLogs == []
  {
    ghost var ids := IDs(nodes);
    fks, nodeids := [], map[];
    for i := 0 to |nodes|
      invariant fks == ids[..i] && IndexedByID(nodeids, nodes[..i], ids[..i])
      invariant forall x <- nodes[..i] :: x.UsageLogs == []
    {
      IndexStep(nodeids, nodes, ids, i);
      fks := fks + [nodes[i].ID];
      nodeids := nodeids[nodes[i].ID := nodes[i]];
      nodes[i].UsageLogs := [];
    }
    assert nodes[..|nodes|] == nodes && ids[..|ids|] == ids;
  }

  /** One child is appended to its parent's list; every other list stays. */
  method AttachUsageLog(logs: seq<UsageLog>, k: nat, node: Account, nodes: seq<Account>, ghost ids: seq<int>)
    requires k < |logs| && ids == IDs(nodes) && node in nodes
    requires Some(node) == Owner(nodes, ids, logs[k].AccountID)
    requires UsageLogsLoaded(nodes, ids, logs, k)
    modifies nodes`UsageLogs
    ensures UsageLogsLoaded(nodes, ids, logs, k + 1)
  {
    OwnerHasID(nodes, ids, logs[k].AccountID);
    node.UsageLogs := node.UsageLogs + [logs[k]];
    ghost var fks := LogKeys(logs);
    forall i | 0 <= i < |nodes|
      ensures nodes[i].UsageLogs ==
              if Owner(nodes, ids, ids[i]) == Some(nodes[i]) then ChildrenOf(logs[..k+1], fks[..k+1], ids[i]) else []
    {
      ChildrenOfExtended(logs, fks, ids[i], k);
      if nodes[i] == node {
        assert ids[i] == logs[k].AccountID;
      } else {
        assert nodes[i].UsageLogs == old(nodes[i].UsageLogs);
      }
    }
  }

  method AttachUsageLogs(logs: seq<UsageLog>, nodeids: map<int, Account>, nodes: seq<Account>, ghost ids: seq<int>)
    returns (err: Option<LoadError>, ghost stop: nat)
    requires ids == IDs(nodes) && IndexedByID(nodeids, nodes, ids)
    requires forall x <- nodes :: x.UsageLogs == []
    modifies nodes`UsageLogs
    ensures StopsAt(LogKeys(logs), ids, stop)
    ensures UsageLogsLoaded(nodes, ids, logs, stop)
    ensures err == OrphanError(logs, stop)
  {
    ghost var fks := LogKeys(logs);
    for k := 0 to |logs|
      invariant Parented(fks[..k], ids)
      invariant UsageLogsLoaded(nodes, ids, logs, k)
    {
      var n := logs[k];
      if n.AccountID !in nodeids {
        return Some(UnexpectedForeignKey(n.AccountID, n.ID)), k;
      }
      assert fks[k] == Some(n.AccountID) && n.AccountID in ids;
      AttachUsageLog(logs, k, nodeids[n.AccountID], nodes, ids);
    }
    return None, |logs|;
  }

  /** `AppendFieldOnce` on the selected fields, when there are any. */
  function WithKey(fields: seq<Column>, key: Column): seq<Column> {
    if fields == [] then [] else AddOnce(fields, key)
  }

  /** The error for child `k`, the first whose parent is unknown. */
  function OrphanError(logs: seq<UsageLog>, k: nat): Option<LoadError> {
    if k < |logs| then Some(UnexpectedForeignKey(logs[k].AccountID, logs[k].ID)) else None
  }

  method FetchUsageLogs(query: UsageLogQuery, ids: seq<int>) returns (r: Result<seq<UsageLog>, LoadError>)
    modifies query`Fields, query`Predicates
    ensures query.Fields == WithKey(old(query.Fields), FieldAccountID)
    ensures query.Predicates == old(query.Predicates) + [Among(ids)]
    ensures match Answer(query.rows, query.Predicates, query.Fields)
            case Err(e) => r == Err(e)
            case Ok(records) => r.Ok? && DecodedFrom(r.value, records, true)
  {
    if |query.Fields| > 0 {
      query.Fields := AddOnce(query.Fields, FieldAccountID);
      ProjectionKeepsKeys(USAGE_LOG_COLUMNS, true, query.Fields, []);
    }
    query.Predicates := query.Predicates + [Among(ids)];
    r := query.All();
  }

  /** The first record whose parent is unknown. */
  function OrphanRecord(records: seq<UsageLogRecord>, ids: seq<int>): Option<LoadError> {
    if records == [] then None
    else if records[0].accountID !in ids then Some(UnexpectedForeignKey(records[0].accountID, records[0].id))
    else OrphanRecord(records[1..], ids)
  }

  /** The error of loading the usage logs of these accounts under these predicates,
      the loader's own included. */
  function LoadUsageLogsError(query: UsageLogQuery, predicates: seq<Predicate>, fields: seq<Column>, ids: seq<int>)
    : Option<LoadError>
  {
    match Answer(query.rows, predicates, fields)
    case Err(e) => Some(e)
    case Ok(records) => OrphanRecord(records, ids)
  }

  /** The loader's error, from the answer alone. */
  lemma {:induction false} OrphanAt(logs: seq<UsageLog>, records: seq<UsageLogRecord>, ids: seq<int>, stop: nat)
    requires DecodedFrom(logs, records, true) && StopsAt(LogKeys(logs), ids, stop)
    ensures OrphanRecord(records, ids) == OrphanError(logs, stop)
  {
    if records != [] {
      var fks := LogKeys(logs);
      assert fks[0] == Some(records[0].accountID);
      if stop > 0 {
        assert fks[..stop][0] == fks[0] && fks[0] in fks[..stop];
        assert LogKeys(logs[1..]) == fks[1..];
        assert fks[1..][..stop-1] == fks[..stop][1..];
        OrphanAt(logs[1..], records[1..], ids, stop - 1);
      }
    }
  }

  /** `loadUsageLogs`, with the child objects as a ghost result. The foreign keys
      that decide where a child goes are the stored ones, whatever was selected. */
  method LoadUsageLogs(query: UsageLogQuery, nodes: seq<Account>)
    returns (err: Option<LoadError>, ghost logs: seq<UsageLog>, ghost stop: nat)
    modifies nodes`UsageLogs, query`Fields, query`Predicates
    ensures query.Fields == WithKey(old(query.Fields), FieldAccountID)
    ensures query.Predicates == old(query.Predicates) + [Among(IDs(nodes))]
    ensures err == LoadUsageLogsError(query, query.Predicates, query.Fields, IDs(nodes))
    ensures LogsLoaded(nodes, IDs(nodes), logs, stop, err)
    ensures Fetched(query, logs) && Ended(query, logs, stop, err)
  {
    var fks, nodeids := IndexParents(nodes);
    err, logs, stop := FetchAndAttach(query, fks, nodeids, nodes);
  }

  /** The loader after its first loop. */
  method FetchAndAttach(query: UsageLogQuery, fks: seq<int>, nodeids: map<int, Account>, nodes: seq<Account>)
    returns (err: Option<LoadError>, ghost logs: seq<UsageLog>, ghost stop: nat)
    requires fks == IDs(nodes) && IndexedByID(nodeids, nodes, fks) && forall x <- nodes :: x.UsageLogs == []
    modifies nodes`UsageLogs, query`Fields, query`Predicates
    ensures query.Fields == WithKey(old(query.Fields), FieldAccountID)
    ensures query.Predicates == old(query.Predicates) + [Among(fks)]
    ensures err == LoadUsageLogsError(query, query.Predicates, query.Fields, fks)
    ensures fks == IDs(nodes) && LogsLoaded(nodes, fks, logs, stop, err)
    ensures Fetched(query, logs) && Ended(query, logs, stop, err)
  {
    var fetched := FetchUsageLogs(query, fks);
    if fetched.Err? {
      return Some(fetched.error), [], 0;
    }
    logs := fetched.value;
    err, stop := AttachUsageLogs(fetched.value, nodeids, nodes, fks);
    OrphanAt(logs, Answer(query.rows, query.Predicates, query.Fields).value, fks, stop);
  }

  /** The children that were fetched: one per record, none when the query fails. */
  ghost predicate Fetched(query: UsageLogQuery, logs: seq<UsageLog>)
    reads query
  {
    match Answer(query.rows, query.Predicates, query.Fields)
    case Err(_) => logs == []
    case Ok(records) => DecodedFrom(logs, records, true)
  }

  /** How the load ended: on an invalid field, with the error of the query, or with
      one that names the first child that was not attached, if there is one. */
  ghost predicate Ended(query: UsageLogQuery, logs: seq<UsageLog>, stop: nat, err: Option<LoadError>)
    reads query
  {
    var invalid, answer := InvalidField(USAGE_LOG_COLUMNS, query.Fields), query.rows(query.Predicates);
    if invalid.Some? then err == Some(ValidationError(invalid.value))
    else if answer.Err? then err == Some(answer.error)
    else
      && DecodedFrom(logs, answer.value, true) && stop <= |logs|
      && err == if stop == |logs| then None else Some(UnexpectedForeignKey(logs[stop].AccountID, logs[stop].ID))
  }

  /** The edge after loading: the children before the first without a known parent
      were attached, all of them if the load succeeded. */
  ghost predicate LogsLoaded(nodes: seq<Account>, ids: seq<int>, logs: seq<UsageLog>, stop: nat, err: Option<LoadError>)
    requires |nodes| == |ids|
    reads nodes`UsageLogs
  {
    && StopsAt(LogKeys(logs), ids, stop) && UsageLogsLoaded(nodes, ids, logs, stop)
    && (err.None? ==> stop == |logs|)
  }

  function LogIDs(logs: seq<UsageLog>): (r: seq<int>)
    ensures |r| == |logs| && forall i :: 0 <= i < |logs| ==> r[i] == logs[i].ID
  {
    seq(|logs|, i requires 0 <= i < |logs| => logs[i].ID)
  }

  function RecordIDs(records: seq<UsageLogRecord>): (r: seq<int>)
    ensures |r| == |records| && forall i :: 0 <= i < |records| ==> r[i] == records[i].id
  {
    seq(|records|, i requires 0 <= i < |records| => records[i].id)
  }

  /** Children are selected by position, so selecting IDs is selecting children. */
  lemma {:induction false} ChildIDs(logs: seq<UsageLog>, records: seq<UsageLogRecord>, id: int)
    requires DecodedFrom(logs, records, true)
    ensures LogIDs(ChildrenOf(logs, LogKeys(logs), id)) == ChildrenOf(RecordIDs(records), RecordKeys(records), id)
  {
    var fks := LogKeys(logs);
    assert fks == RecordKeys(records);
    ChildrenArePicked(logs, fks, id);
    ChildrenArePicked(RecordIDs(records), fks, id);
  }

  /** Lengths of the lists the nodes hold, summed. */
  function TotalHeld(nodes: seq<Account>): nat
    reads nodes`UsageLogs
  {
    if nodes == [] then 0 else TotalHeld(nodes[..|nodes|-1]) + |nodes[|nodes|-1].UsageLogs|
  }

  ghost predicate HoldChildren(nodes: seq<Account>, ids: seq<int>, logs: seq<UsageLog>)
    reads nodes`UsageLogs
  {
    |nodes| == |ids| &&
    forall i :: 0 <= i < |nodes| ==> nodes[i].UsageLogs == ChildrenOf(logs, LogKeys(logs), ids[i])
  }

  lemma {:induction false} HeldIsTotal(nodes: seq<Account>, ids: seq<int>, logs: seq<UsageLog>)
    requires HoldChildren(nodes, ids, logs)
    ensures TotalHeld(nodes) == TotalChildren(logs, LogKeys(logs), ids)
  {
    if nodes != [] {
      HeldIsTotal(nodes[..|nodes|-1], ids[..|nodes|-1], logs);
    }
  }

  lemma {:induction false} HeldByParent(nodes: seq<Account>, ids: seq<int>, logs: seq<UsageLog>, k: nat)
    returns (i: nat)
    requires HoldChildren(nodes, ids, logs)
    requires k < |logs| && logs[k].AccountID in ids
    ensures i < |nodes| && ids[i] == logs[k].AccountID && logs[k] in nodes[i].UsageLogs
  {
    i :| 0 <= i < |ids| && ids[i] == logs[k].AccountID;
    var fks := LogKeys(logs);
    ChildrenAreStable(logs, fks, ids[i]);
    var at := ChildrenAt(fks, ids[i]);
    var j :| 0 <= j < |at| && at[j] == k;
    assert nodes[i].UsageLogs[j] == logs[k];
  }

  lemma {:induction false} HeldIsChild(nodes: seq<Account>, ids: seq<int>, logs: seq<UsageLog>, i: nat, log: UsageLog)
    requires HoldChildren(nodes, ids, logs) && i < |nodes| && log in nodes[i].UsageLogs
    ensures log.AccountID == ids[i]
  {
    var fks := LogKeys(logs);
    ChildrenAreStable(logs, fks, ids[i]);
    var j :| 0 <= j < |nodes[i].UsageLogs| && nodes[i].UsageLogs[j] == log;
    assert fks[ChildrenAt(fks, ids[i])[j]] == Some(log.AccountID);
  }

  lemma {:induction false} LoadedHoldChildren(nodes: seq<Account>, ids: seq<int>, logs: seq<UsageLog>)
    requires |nodes| == |ids| && NoDup(ids) && UsageLogsLoaded(nodes, ids, logs, |logs|)
    ensures HoldChildren(nodes, ids, logs)
  {
    OwnersWhenDistinct(nodes, ids);
    assert logs[..|logs|] == logs && LogKeys(logs)[..|logs|] == LogKeys(logs);
  }

  ghost predicate EveryChildHeld(nodes: seq<Account>, ids: seq<int>, logs: seq<UsageLog>)
    requires |nodes| == |ids|
    reads nodes`UsageLogs
  {
    forall log <- logs :: exists i :: 0 <= i < |nodes| && ids[i] == log.AccountID && log in nodes[i].UsageLogs
  }

  ghost predicate OnlyChildrenHeld(nodes: seq<Account>, ids: seq<int>)
    requires |nodes| == |ids|
    reads nodes`UsageLogs
  {
    forall i :: 0 <= i < |nodes| ==> forall log <- nodes[i].UsageLogs :: log.AccountID == ids[i]
  }

  lemma {:induction false} ChildrenHeld(nodes: seq<Account>, ids: seq<int>, logs: seq<UsageLog>)
    requires HoldChildren(nodes, ids, logs) && Parented(LogKeys(logs), ids)
    ensures EveryChildHeld(nodes, ids, logs)
  {
    forall log <- logs
      ensures exists i :: 0 <= i < |nodes| && ids[i] == log.AccountID && log in nodes[i].UsageLogs
    {
      var k :| 0 <= k < |logs| && logs[k] == log;
      assert LogKeys(logs)[k] == Some(log.AccountID);
      var i := HeldByParent(nodes, ids, logs, k);
    }
  }

  /** A successful load is a partition of the children: with distinct node IDs
      every child is held by the node its foreign key names, no node holds a
      child of another, and nothing is lost or held twice. */
  lemma {:induction false} LoadIsPartition(nodes: seq<Account>, ids: seq<int>, logs: seq<UsageLog>)
    requires |nodes| == |ids| && NoDup(ids)
    requires Parented(LogKeys(logs), ids) && UsageLogsLoaded(nodes, ids, logs, |logs|)
    ensures EveryChildHeld(nodes, ids, logs) && OnlyChildrenHeld(nodes, ids)
    ensures TotalHeld(nodes) == |logs|
  {
    LoadedHoldChildren(nodes, ids, logs);
    ChildrenHeld(nodes, ids, logs);
    forall i, log | 0 <= i < |nodes| && log in nodes[i].UsageLogs
      ensures log.AccountID == ids[i]
    {
      HeldIsChild(nodes, ids, logs, i, log);
    }
    HeldIsTotal(nodes, ids, logs);
    ChildrenConserved(logs, LogKeys(logs), ids);
  }

  /** With duplicate node IDs every node still gets the children of its ID if and
      only if no ID with two nodes has children. */
  lemma {:induction false} DuplicatesAreServedIff(nodes: seq<Account>, ids: seq<int>, logs: seq<UsageLog>)
    requires |nodes| == |ids| && NoDup(nodes) && UsageLogsLoaded(nodes, ids, logs, |logs|)
    ensures HoldChildren(nodes, ids, logs) <==>
            forall i, j :: 0 <= i < j < |ids| && ids[i] == ids[j] ==> ChildrenOf(logs, LogKeys(logs), ids[i]) == []
  {
    assert logs[..|logs|] == logs && LogKeys(logs)[..|logs|] == LogKeys(logs);
    forall i | 0 <= i < |nodes|
      ensures nodes[i].UsageLogs == ChildrenOf(logs, LogKeys(logs), ids[i]) <==>
              forall j :: i < j < |ids| && ids[j] == ids[i] ==> ChildrenOf(logs, LogKeys(logs), ids[i]) == []
    {
      LostIsExact(nodes, ids, i);
    }
  }

  // ------------------------------------------------------------------------
  // Loading twice through one query
  // ------------------------------------------------------------------------

  /** The query answers from a table of usage logs. */
  ghost predicate Backed(query: UsageLogQuery, table: Table<UsageLogRecord>) {
    && (forall record <- table.records :: table.key(record) == Some(record.accountID))
    && (forall ps :: query.rows(ps) == Ok(Matching(table, table.records, ps)))
  }

  /** Selecting children from what matches is selecting what is stored for the parent. */
  lemma {:induction false} StoredAreChildren<T>(table: Table<T>, records: seq<T>, predicates: seq<Predicate>, id: int)
    ensures var matching := Matching(table, records, predicates);
            ChildrenOf(matching, Keys(table, matching), id) == Stored(table, records, predicates, id)
  {
    if records != [] {
      var before, last := Matching(table, records[..|records|-1], predicates), records[|records|-1];
      StoredAreChildren(table, records[..|records|-1], predicates, id);
      if Satisfies(table, last, predicates) {
        assert Keys(table, before + [last]) == Keys(table, before) + [table.key(last)];
        ChildrenOfMore(before, Keys(table, before), last, table.key(last), id);
      } else {
        assert before + [] == before;
      }
    }
  }

  function Keys<T>(table: Table<T>, records: seq<T>): (fks: seq<Option<int>>)
    ensures |fks| == |records| && forall i :: 0 <= i < |records| ==> fks[i] == table.key(records[i])
  {
    seq(|records|, i requires 0 <= i < |records| => table.key(records[i]))
  }

  /** Every node that owns its ID holds the stored children of that ID. */
  ghost predicate AllServed(nodes: seq<Account>, ids: seq<int>, table: Table<UsageLogRecord>,
                            predicates: seq<Predicate>)
    requires |nodes| == |ids|
    reads nodes`UsageLogs
  {
    forall i :: 0 <= i < |nodes| ==>
      LogIDs(nodes[i].UsageLogs) ==
      if Owner(nodes, ids, ids[i]) == Some(nodes[i]) then RecordIDs(Stored(table, table.records, predicates, ids[i]))
      else []
  }

  /** `earlier` covers every node that has children. */
  ghost predicate Covers(nodes: seq<Account>, ids: seq<int>, table: Table<UsageLogRecord>, predicates: seq<Predicate>,
                         earlier: seq<int>)
    requires |nodes| == |ids|
  {
    forall i :: 0 <= i < |nodes| && Owner(nodes, ids, ids[i]) == Some(nodes[i]) ==>
      ids[i] in earlier || Stored(table, table.records, predicates, ids[i]) == []
  }

  /** Nodes loaded through a query that was loaded for `earlier` before are served as
      through one that was not, if and only if none of them with children was left
      out then. */
  lemma {:induction false} ReuseIsExact(nodes: seq<Account>, ids: seq<int>, table: Table<UsageLogRecord>,
                                        predicates: seq<Predicate>, earlier: seq<int>)
    requires |nodes| == |ids| && AllServed(nodes, ids, table, predicates + [Among(earlier)])
    ensures AllServed(nodes, ids, table, predicates) <==> Covers(nodes, ids, table, predicates, earlier)
  {
    forall i | 0 <= i < |nodes|
      ensures Stored(table, table.records, predicates + [Among(earlier)], ids[i]) ==
              if ids[i] in earlier then Stored(table, table.records, predicates, ids[i]) else []
    {
      StoredAgain(table, table.records, predicates, earlier, ids[i]);
    }
  }

  lemma {:induction false} WithKeyValid(fields: seq<Column>)
    requires InvalidField(USAGE_LOG_COLUMNS, fields).None?
    ensures InvalidField(USAGE_LOG_COLUMNS, WithKey(fields, FieldAccountID)).None?
  {
    assert USAGE_LOG_COLUMNS[1] == FieldAccountID;
  }

  lemma {:induction false} AllParented(table: Table<UsageLogRecord>, predicates: seq<Predicate>, ids: seq<int>,
                                       records: seq<UsageLogRecord>)
    requires forall record <- table.records :: table.key(record) == Some(record.accountID)
    requires forall record <- records :: record in Matching(table, table.records, predicates + [Among(ids)])
    ensures OrphanRecord(records, ids).None?
  {
    if records != [] {
      assert records[0] in records;
      MatchingMembers(table, table.records, predicates + [Among(ids)], records[0]);
      SatisfiesMore(table, records[0], predicates, ids);
      AllParented(table, predicates, ids, records[1..]);
    }
  }

  /** A load from a table succeeds and serves every node by the predicates the query
      had before. */
  method LoadFromTable(query: UsageLogQuery, ghost table: Table<UsageLogRecord>, nodes: seq<Account>)
    returns (err: Option<LoadError>)
    requires Backed(query, table) && InvalidField(USAGE_LOG_COLUMNS, query.Fields).None?
    modifies nodes`UsageLogs, query`Fields, query`Predicates
    ensures err.None? && query.Predicates == old(query.Predicates) + [Among(IDs(nodes))]
    ensures InvalidField(USAGE_LOG_COLUMNS, query.Fields).None?
    ensures AllServed(nodes, IDs(nodes), table, old(query.Predicates))
  {
    ghost var predicates, ids := query.Predicates, IDs(nodes);
    WithKeyValid(query.Fields);
    ghost var logs, stop;
    err, logs, stop := LoadUsageLogs(query, nodes);
    assert IDs(nodes) == ids;
    AllParented(table, predicates, ids, Matching(table, table.records, predicates + [Among(ids)]));
    ServedFromTable(table, predicates, nodes, ids, logs);
  }

  lemma {:induction false} ServedFromTable(table: Table<UsageLogRecord>, predicates: seq<Predicate>,
                                           nodes: seq<Account>, ids: seq<int>, logs: seq<UsageLog>)
    requires |nodes| == |ids| && forall record <- table.records :: table.key(record) == Some(record.accountID)
    requires DecodedFrom(logs, Matching(table, table.records, predicates + [Among(ids)]), true)
    requires UsageLogsLoaded(nodes, ids, logs, |logs|)
    ensures AllServed(nodes, ids, table, predicates)
  {
    var records := Matching(table, table.records, predicates + [Among(ids)]);
    assert logs[..|logs|] == logs && LogKeys(logs)[..|logs|] == LogKeys(logs);
    forall i | 0 <= i < |nodes|
      ensures LogIDs(ChildrenOf(logs, LogKeys(logs), ids[i])) ==
              RecordIDs(Stored(table, table.records, predicates, ids[i]))
    {
      ChildIDs(logs, records, ids[i]);
      AnsweredChildren(table, predicates, ids, ids[i]);
    }
    assert LogIDs([]) == [];
  }

  /** The children of an account in an answer restricted to it are its stored ones. */
  lemma {:induction false} AnsweredChildren(table: Table<UsageLogRecord>, predicates: seq<Predicate>, ids: seq<int>,
                                            id: int)
    requires forall record <- table.records :: table.key(record) == Some(record.accountID)
    requires id in ids
    ensures var records := Matching(table, table.records, predicates + [Among(ids)]);
            ChildrenOf(RecordIDs(records), RecordKeys(records), id) ==
            RecordIDs(Stored(table, table.records, predicates, id))
  {
    var records := Matching(table, table.records, predicates + [Among(ids)]);
    forall i | 0 <= i < |records|
      ensures RecordKeys(records)[i] == Keys(table, records)[i]
    {
      MatchingMembers(table, table.records, predicates + [Among(ids)], records[i]);
    }
    var fks := RecordKeys(records);
    assert fks == Keys(table, records);
    StoredAreChildren(table, table.records, predicates + [Among(ids)], id);
    StoredAgain(table, table.records, predicates, ids, id);
    ChildrenArePicked(records, fks, id);
    ChildrenArePicked(RecordIDs(records), fks, id);
  }

  /** Two loads through one query: both succeed, and the second serves its nodes as
      a fresh query would exactly when the first asked for those with children. */
  method LoadTwice(query: UsageLogQuery, ghost table: Table<UsageLogRecord>, first: seq<Account>, second: seq<Account>)
    returns (firstErr: Option<LoadError>, secondErr: Option<LoadError>)
    requires Backed(query, table) && InvalidField(USAGE_LOG_COLUMNS, query.Fields).None?
    modifies first`UsageLogs, second`UsageLogs, query`Fields, query`Predicates
    ensures firstErr.None? && secondErr.None?
    ensures query.Predicates == old(query.Predicates) + [Among(old(IDs(first)))] + [Among(old(IDs(second)))]
    ensures AllServed(second, old(IDs(second)), table, old(query.Predicates) + [Among(old(IDs(first)))])
    ensures AllServed(second, old(IDs(second)), table, old(query.Predicates)) <==>
            Covers(second, old(IDs(second)), table, old(query.Predicates), old(IDs(first)))
  {
    ghost var predicates, earlier, ids := query.Predicates, IDs(first), IDs(second);
    firstErr := LoadFromTable(query, table, first);
    assert IDs(second) == ids;
    secondErr := LoadFromTable(query, table, second);
    assert IDs(second) == ids;
    ReuseIsExact(second, ids, table, predicates, earlier);
  }
}
