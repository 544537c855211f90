/** Eager loading of a many-to-one edge with a nullable foreign key: `loadProxy`
    of the account query. A required foreign key is the case without NULLs. */
module LoadM2O {
  import opened Prelude
  import opened RowCodec
  import opened QuerySpec
  import opened Entities
  import opened Loading

  datatype ProxyRecord = ProxyRecord(id: int)

  const PROXY_COLUMNS: seq<Column> := [FieldID, FieldName]

  /** The proxy query as the loader uses it. `rows` is what the database returns
      for its predicates. */
  class ProxyQuery {
    var Fields: seq<Column>
    var Predicates: seq<Predicate>
    const rows: seq<Predicate> -> Result<seq<ProxyRecord>, LoadError>

    constructor (fields: seq<Column>, rows: seq<Predicate> -> Result<seq<ProxyRecord>, LoadError>)
      ensures Fields == fields && Predicates == [] && this.rows == rows
    {
      Fields, Predicates := fields, [];
      this.rows := rows;
    }

    method All() returns (r: Result<seq<Proxy>, LoadError>)
      ensures match Answer(rows, Predicates, Fields)
              case Err(e) => r == Err(e)
              case Ok(records) => r.Ok? && ProxyIDs(r.value) == RecordIDs(records)
    {
      var invalid := InvalidField(PROXY_COLUMNS, Fields);
      if invalid.Some? {
        return Err(ValidationError(invalid.value));
      }
      var fetched := rows(Predicates);
      if fetched.Err? {
        return Err(fetched.error);
      }
      var nodes: seq<Proxy> := [];
      for i := 0 to |fetched.value|
        invariant ProxyIDs(nodes) == RecordIDs(fetched.value)[..i]
      {
        var node := new Proxy(fetched.value[i].id);
        nodes := nodes + [node];
      }
      return Ok(nodes);
    }
  }

  /** What `All` answers, as records. */
  function Answer(rows: seq<Predicate> -> Result<seq<ProxyRecord>, LoadError>, predicates: seq<Predicate>,
                  fields: seq<Column>)
    : Result<seq<ProxyRecord>, LoadError>
  {
    match InvalidField(PROXY_COLUMNS, fields)
    case Some(f) => Err(ValidationError(f))
    case None => rows(predicates)
  }

  function RecordIDs(records: seq<ProxyRecord>): (r: seq<int>)
    ensures |r| == |records| && forall i :: 0 <= i < |records| ==> r[i] == records[i].id
  {
    seq(|records|, i requires 0 <= i < |records| => records[i].id)
  }

  function ProxyIDs(proxies: seq<Proxy>): (r: seq<int>)
    ensures |r| == |proxies| && forall i :: 0 <= i < |proxies| ==> r[i] == proxies[i].ID
  {
    seq(|proxies|, i requires 0 <= i < |proxies| => proxies[i].ID)
  }

  // ------------------------------------------------------------------------
  // Specification
  // ------------------------------------------------------------------------

  function ForeignKeys(nodes: seq<Account>): (fks: seq<Option<int>>)
    reads nodes`ProxyID
    ensures |fks| == |nodes| && forall i :: 0 <= i < |nodes| ==> fks[i] == nodes[i].ForeignKey()
  {
    if nodes == [] then [] else ForeignKeys(nodes[..|nodes|-1]) + [nodes[|nodes|-1].ForeignKey()]
  }

  function NonNull(fks: seq<Option<int>>): seq<int> {
    if fks == [] then []
    else
      var last := fks[|fks|-1];
      if last.None? then NonNull(fks[..|fks|-1]) else NonNull(fks[..|fks|-1]) + [last.value]
  }

  /** What the database is asked for: every non-null foreign key, when it first appears. */
  function AskedIDs(fks: seq<Option<int>>): seq<int> {
    if fks == [] then []
    else
      var k := |fks| - 1;
      if fks[k].None? || fks[k] in fks[..k] then AskedIDs(fks[..k]) else AskedIDs(fks[..k]) + [fks[k].value]
  }

  lemma {:induction false} NonNullMembers(fks: seq<Option<int>>, fk: int)
    ensures fk in NonNull(fks) <==> Some(fk) in fks
  {
    if fks != [] {
      NonNullMembers(fks[..|fks|-1], fk);
      assert fks == fks[..|fks|-1] + [fks[|fks|-1]];
    }
  }

  /** The IDs asked for are the distinct non-null foreign keys in first-occurrence order. */
  lemma {:induction false} AskedAreFirstOccurrences(fks: seq<Option<int>>)
    ensures AskedIDs(fks) == FirstOccurrences(NonNull(fks))
    ensures NoDup(AskedIDs(fks))
    ensures forall id :: id in AskedIDs(fks) <==> Some(id) in fks
  {
    if fks != [] {
      var k := |fks| - 1;
      AskedAreFirstOccurrences(fks[..k]);
      if fks[k].Some? {
        FirstOccurrencesExtended(NonNull(fks[..k]), fks[k].value);
        NonNullMembers(fks[..k], fks[k].value);
      }
    }
    forall id {
      NonNullMembers(fks, id);
    }
  }

  /** The nodes whose foreign key is `fk`, in order, duplicates included. */
  function Sharing(nodes: seq<Account>, fks: seq<Option<int>>, fk: int): seq<Account>
    requires |nodes| == |fks|
  {
    if nodes == [] then []
    else
      var k := |nodes| - 1;
      Sharing(nodes[..k], fks[..k], fk) + if fks[k] == Some(fk) then [nodes[k]] else []
  }

  /** The last neighbour with this ID. */
  function LastByID(neighbors: seq<Proxy>, id: int): (p: Proxy?)
    ensures p == null <==> id !in ProxyIDs(neighbors)
    ensures p != null ==> p in neighbors && p.ID == id
  {
    if neighbors == [] then null
    else
      var k := |neighbors| - 1;
      assert ProxyIDs(neighbors) == ProxyIDs(neighbors[..k]) + [neighbors[k].ID];
      if neighbors[k].ID == id then neighbors[k] else LastByID(neighbors[..k], id)
  }

  /** The neighbour `x` must point to: the one whose ID is its foreign key, and
      what it pointed to before when there is none. */
  function PointsTo(neighbors: seq<Proxy>, fk: Option<int>, before: Proxy?): Proxy? {
    if fk.None? then before
    else
      var p := LastByID(neighbors, fk.value);
      if p == null then before else p
  }

  // ------------------------------------------------------------------------
  // The loader
  // ------------------------------------------------------------------------

  ghost predicate Buckets(nodeids: map<int, seq<Account>>, nodes: seq<Account>, fks: seq<Option<int>>)
    requires |nodes| == |fks|
  {
    forall fk :: (fk in nodeids <==> Some(fk) in fks) && (fk in nodeids ==> nodeids[fk] == Sharing(nodes, fks, fk))
  }

  lemma {:induction false} SharingMembers(nodes: seq<Account>, fks: seq<Option<int>>, fk: int)
    requires |nodes| == |fks| && forall i :: 0 <= i < |nodes| ==> fks[i] == nodes[i].ForeignKey()
    ensures forall x :: x in Sharing(nodes, fks, fk) <==> x in nodes && x.ForeignKey() == Some(fk)
    ensures Some(fk) !in fks ==> Sharing(nodes, fks, fk) == []
  {
    if nodes != [] {
      var k := |nodes| - 1;
      assert nodes == nodes[..k] + [nodes[k]];
      SharingMembers(nodes[..k], fks[..k], fk);
    }
  }

  lemma {:induction false} BucketsStep(nodeids: map<int, seq<Account>>, nodes: seq<Account>, fks: seq<Option<int>>,
                                       i: nat)
    requires i < |nodes| == |fks| && forall i :: 0 <= i < |nodes| ==> fks[i] == nodes[i].ForeignKey()
    requires Buckets(nodeids, nodes[..i], fks[..i])
    ensures var fk := fks[i];
            var nodeids' := if fk.None? then nodeids
                            else nodeids[fk.value := (if fk.value in nodeids then nodeids[fk.value] else [])
                                         + [nodes[i]]];
            Buckets(nodeids', nodes[..i+1], fks[..i+1])
  {
    assert fks[..i+1] == fks[..i] + [fks[i]];
    if fks[i].Some? {
      SharingMembers(nodes[..i], fks[..i], fks[i].value);
    }
    forall fk {
      SharingStep(nodes, fks, i, fk);
    }
  }

  lemma {:induction false} SharingStep(nodes: seq<Account>, fks: seq<Option<int>>, i: nat, fk: int)
    requires i < |nodes| == |fks|
    ensures Sharing(nodes[..i+1], fks[..i+1], fk) ==
            Sharing(nodes[..i], fks[..i], fk) + if fks[i] == Some(fk) then [nodes[i]] else []
  {
    assert nodes[..i+1][..i] == nodes[..i] && fks[..i+1][..i] == fks[..i];
  }

  /** The first loop: the distinct foreign keys to ask for, and the bucket of each. */
  method CollectForeignKeys(nodes: seq<Account>) returns (ids: seq<int>, nodeids: map<int, seq<Account>>)
    ensures ids == AskedIDs(ForeignKeys(nodes))
    ensures Buckets(nodeids, nodes, ForeignKeys(nodes))
  {
    ghost var fks := ForeignKeys(nodes);
    ids, nodeids := [], map[];
    for i := 0 to |nodes|
      invariant ids == AskedIDs(fks[..i])
      invariant Buckets(nodeids, nodes[..i], fks[..i])
    {
      AskedStep(fks, i);
      BucketsStep(nodeids, nodes, fks, i);
      if nodes[i].ProxyID == null {
        continue;
      }
      var fk := nodes[i].ProxyID.value;
      if fk !in nodeids {
        ids := ids + [fk];
      }
      nodeids := nodeids[fk := (if fk in nodeids then nodeids[fk] else []) + [nodes[i]]];
    }
    assert nodes[..|nodes|] == nodes && fks[..|fks|] == fks;
  }

  lemma {:induction false} AskedStep(fks: seq<Option<int>>, i: nat)
    requires i < |fks|
    ensures AskedIDs(fks[..i+1]) ==
            if fks[i].None? || fks[i] in fks[..i] then AskedIDs(fks[..i]) else AskedIDs(fks[..i]) + [fks[i].value]
  {
    assert fks[..i+1][..i] == fks[..i];
  }

  /** Some node refers to each of the neighbours. */
  ghost predicate Referred(neighbors: seq<Proxy>, fks: seq<Option<int>>) {
    forall n <- neighbors :: Some(n.ID) in fks
  }

  /** Neighbour `k` is the first no node refers to, or there is none and `k` counts them all. */
  ghost predicate StopsAt(neighbors: seq<Proxy>, fks: seq<Option<int>>, k: nat) {
    && k <= |neighbors|
    && Referred(neighbors[..k], fks)
    && (k < |neighbors| ==> Some(neighbors[k].ID) !in fks)
  }

  lemma {:induction false} ReferredStep(neighbors: seq<Proxy>, fks: seq<Option<int>>, k: nat)
    requires k < |neighbors| && Referred(neighbors[..k], fks) && Some(neighbors[k].ID) in fks
    ensures Referred(neighbors[..k+1], fks)
  {
  }

  /** The error for neighbour `k`. */
  function UnaskedError(neighbors: seq<Proxy>, k: nat): Option<LoadError> {
    if k < |neighbors| then Some(UnexpectedNode(neighbors[k].ID)) else None
  }

  lemma {:induction false} PointsToStep(neighbors: seq<Proxy>, k: nat, fk: Option<int>, before: Proxy?)
    requires k < |neighbors|
    ensures PointsTo(neighbors[..k+1], fk, before) ==
            if fk == Some(neighbors[k].ID) then neighbors[k] else PointsTo(neighbors[..k], fk, before)
  {
    assert neighbors[..k+1][..k] == neighbors[..k];
  }

  method PointBucket(bucket: seq<Account>, n: Proxy, ghost nodes: seq<Account>)
    requires forall x <- bucket :: x in nodes
    modifies nodes`Proxy
    ensures forall x <- nodes :: x.Proxy == if x in bucket then n else old(x.Proxy)
  {
    for i := 0 to |bucket|
      invariant forall x <- nodes :: x.Proxy == if x in bucket[..i] then n else old(x.Proxy)
    {
      assert bucket[i] in bucket;
      bucket[i].Proxy := n;
    }
    assert bucket[..|bucket|] == bucket;
  }

  /** One neighbour: the nodes of its bucket point at it, the others stay. */
  method AttachOne(neighbors: seq<Proxy>, k: nat, bucket: seq<Account>, nodes: seq<Account>,
                   ghost fks: seq<Option<int>>, ghost before: seq<Proxy?>)
    requires k < |neighbors| && |nodes| == |fks| == |before| && fks == ForeignKeys(nodes)
    requires bucket == Sharing(nodes, fks, neighbors[k].ID)
    requires forall i :: 0 <= i < |nodes| ==> nodes[i].Proxy == PointsTo(neighbors[..k], fks[i], before[i])
    modifies nodes`Proxy
    ensures forall i :: 0 <= i < |nodes| ==> nodes[i].Proxy == PointsTo(neighbors[..k+1], fks[i], before[i])
  {
    SharingMembers(nodes, fks, neighbors[k].ID);
    PointBucket(bucket, neighbors[k], nodes);
    forall i | 0 <= i < |nodes|
      ensures nodes[i].Proxy == PointsTo(neighbors[..k+1], fks[i], before[i])
    {
      PointsToStep(neighbors, k, fks[i], before[i]);
      assert nodes[i] in nodes;
    }
  }

  /** The last loop: points every node of a bucket at the neighbour. */
  method AttachProxies(neighbors: seq<Proxy>, nodeids: map<int, seq<Account>>, nodes: seq<Account>,
                       ghost fks: seq<Option<int>>)
    returns (err: Option<LoadError>, ghost stop: nat)
    requires fks == ForeignKeys(nodes) && Buckets(nodeids, nodes, fks)
    modifies nodes`Proxy
    ensures StopsAt(neighbors, fks, stop)
    ensures ProxiesLoaded(nodes, fks, old(Proxies(nodes)), neighbors, stop)
    ensures err == UnaskedError(neighbors, stop)
  {
    ghost var before := Proxies(nodes);
    for k := 0 to |neighbors|
      invariant Referred(neighbors[..k], fks)
      invariant ProxiesLoaded(nodes, fks, before, neighbors, k)
    {
      var n := neighbors[k];
      if n.ID !in nodeids {
        return Some(UnexpectedNode(n.ID)), k;
      }
      ReferredStep(neighbors, fks, k);
      AttachOne(neighbors, k, nodeids[n.ID], nodes, fks, before);
    }
    assert neighbors[..|neighbors|] == neighbors;
    return None, |neighbors|;
  }

  /** The edge after loading: `k` neighbours were attached. */
  ghost predicate ProxiesLoaded(nodes: seq<Account>, fks: seq<Option<int>>, before: seq<Proxy?>,
                                neighbors: seq<Proxy>, k: nat)
    requires |nodes| == |fks| == |before| && k <= |neighbors|
    reads nodes`Proxy
  {
    forall i :: 0 <= i < |nodes| ==> nodes[i].Proxy == PointsTo(neighbors[..k], fks[i], before[i])
  }

  function Proxies(nodes: seq<Account>): (r: seq<Proxy?>)
    reads nodes`Proxy
    ensures |r| == |nodes| && forall i :: 0 <= i < |nodes| ==> r[i] == nodes[i].Proxy
  {
    if nodes == [] then [] else Proxies(nodes[..|nodes|-1]) + [nodes[|nodes|-1].Proxy]
  }

  /** How the loader ended after asking for these fields under these predicates: on an
      invalid field, with the query's error, or with one that names the first neighbour
      no node refers to, if there is one. */
  ghost predicate Outcome(query: ProxyQuery, predicates: seq<Predicate>, fields: seq<Column>, neighbors: seq<Proxy>,
                          stop: nat, err: Option<LoadError>) {
    var invalid, answer := InvalidField(PROXY_COLUMNS, fields), query.rows(predicates);
    if invalid.Some? then err == Some(ValidationError(invalid.value)) && neighbors == []
    else if answer.Err? then err == Some(answer.error) && neighbors == []
    else
      && ProxyIDs(neighbors) == RecordIDs(answer.value) && stop <= |neighbors|
      && err == if stop == |neighbors| then None else Some(UnexpectedNode(neighbors[stop].ID))
  }

  /** Appends the collected IDs to the query's predicates, asks and attaches what is
      returned. */
  method LoadAsked(query: ProxyQuery, ids: seq<int>, nodeids: map<int, seq<Account>>, nodes: seq<Account>,
                   ghost fks: seq<Option<int>>)
    returns (err: Option<LoadError>, ghost neighbors: seq<Proxy>, ghost stop: nat)
    requires fks == ForeignKeys(nodes) && Buckets(nodeids, nodes, fks)
    modifies nodes`Proxy, query`Predicates
    ensures query.Predicates == old(query.Predicates) + [Among(ids)]
    ensures StopsAt(neighbors, fks, stop)
    ensures ProxiesLoaded(nodes, fks, old(Proxies(nodes)), neighbors, stop)
    ensures Outcome(query, query.Predicates, query.Fields, neighbors, stop, err)
  {
    query.Predicates := query.Predicates + [Among(ids)];
    var fetched := query.All();
    if fetched.Err? {
      return Some(fetched.error), [], 0;
    }
    neighbors := fetched.value;
    err, stop := AttachProxies(fetched.value, nodeids, nodes, fks);
  }

  /** The predicates after loading for these foreign keys: nothing is asked for when
      no node has a proxy. */
  function Restricted(predicates: seq<Predicate>, ids: seq<int>): seq<Predicate> {
    if ids == [] then predicates else predicates + [Among(ids)]
  }

  /** `loadProxy`, with the neighbour objects as a ghost result. */
  method LoadProxy(query: ProxyQuery, nodes: seq<Account>)
    returns (err: Option<LoadError>, ghost neighbors: seq<Proxy>, ghost stop: nat)
    modifies nodes`Proxy, query`Predicates
    ensures query.Predicates == Restricted(old(query.Predicates), AskedIDs(old(ForeignKeys(nodes))))
    ensures StopsAt(neighbors, old(ForeignKeys(nodes)), stop)
    ensures ProxiesLoaded(nodes, old(ForeignKeys(nodes)), old(Proxies(nodes)), neighbors, stop)
    ensures if AskedIDs(old(ForeignKeys(nodes))) == [] then err.None? && neighbors == []
            else Outcome(query, query.Predicates, query.Fields, neighbors, stop, err)
  {
    ghost var fks, before := ForeignKeys(nodes), Proxies(nodes);
    var ids, nodeids := CollectForeignKeys(nodes);
    err, neighbors, stop := None, [], 0;
    if |ids| > 0 {
      err, neighbors, stop := LoadAsked(query, ids, nodeids, nodes, fks);
    }
  }

  /** The first record no node refers to. */
  function UnaskedRecord(records: seq<ProxyRecord>, fks: seq<Option<int>>): Option<LoadError> {
    if records == [] then None
    else if Some(records[0].id) !in fks then Some(UnexpectedNode(records[0].id))
    else UnaskedRecord(records[1..], fks)
  }

  /** The error of loading proxies for these foreign keys under these predicates, the
      loader's own included. */
  function LoadProxyError(query: ProxyQuery, predicates: seq<Predicate>, fields: seq<Column>, fks: seq<Option<int>>)
    : Option<LoadError>
  {
    if AskedIDs(fks) == [] then None
    else
      match Answer(query.rows, predicates, fields)
      case Err(e) => Some(e)
      case Ok(records) => UnaskedRecord(records, fks)
  }

  lemma {:induction false} UnaskedAt(neighbors: seq<Proxy>, records: seq<ProxyRecord>, fks: seq<Option<int>>, stop: nat)
    requires ProxyIDs(neighbors) == RecordIDs(records) && StopsAt(neighbors, fks, stop)
    ensures UnaskedRecord(records, fks) == UnaskedError(neighbors, stop)
  {
    assert |neighbors| == |ProxyIDs(neighbors)| == |RecordIDs(records)| == |records|;
    if records != [] {
      assert ProxyIDs(neighbors)[0] == RecordIDs(records)[0];
      if stop > 0 {
        assert neighbors[..stop][0] == neighbors[0] && neighbors[0] in neighbors[..stop];
        assert neighbors[1..][..stop-1] == neighbors[..stop][1..];
        assert ProxyIDs(neighbors[1..]) == ProxyIDs(neighbors)[1..] ==
               RecordIDs(records)[1..] == RecordIDs(records[1..]);
        UnaskedAt(neighbors[1..], records[1..], fks, stop - 1);
      }
    }
  }

  /** The loader's error, from the foreign keys and the answer alone. */
  lemma {:induction false} LoadErrorIsExact(
      query: ProxyQuery, predicates: seq<Predicate>, fields: seq<Column>, neighbors: seq<Proxy>,
      fks: seq<Option<int>>, stop: nat, err: Option<LoadError>)
    requires StopsAt(neighbors, fks, stop)
    requires if AskedIDs(fks) == [] then err.None? && neighbors == []
             else Outcome(query, predicates, fields, neighbors, stop, err)
    ensures err == LoadProxyError(query, predicates, fields, fks)
  {
    var answer := Answer(query.rows, predicates, fields);
    if AskedIDs(fks) != [] && answer.Ok? {
      UnaskedAt(neighbors, answer.value, fks, stop);
    }
  }

  // ------------------------------------------------------------------------
  // What the loader is for
  // ------------------------------------------------------------------------

  /** The rows a query restricted to `ids` may return. */
  ghost predicate OnlyAsked(records: seq<ProxyRecord>, ids: seq<int>) {
    forall record <- records :: record.id in ids
  }

  /** One batched query serves every node as a lookup of its own would: the load
      succeeds, and each node, duplicates included, points to a neighbour whose ID
      is its foreign key, or keeps what it had when none was returned. */
  lemma {:induction false} LoadIsPerNodeLookup(
      nodes: seq<Account>, fks: seq<Option<int>>, before: seq<Proxy?>, neighbors: seq<Proxy>,
      records: seq<ProxyRecord>, stop: nat)
    requires |nodes| == |fks| == |before|
    requires ProxyIDs(neighbors) == RecordIDs(records) && OnlyAsked(records, AskedIDs(fks))
    requires StopsAt(neighbors, fks, stop) && ProxiesLoaded(nodes, fks, before, neighbors, stop)
    ensures UnaskedError(neighbors, stop).None?
    ensures forall i :: 0 <= i < |nodes| ==>
              if fks[i].Some? && fks[i].value in RecordIDs(records)
              then nodes[i].Proxy != null && nodes[i].Proxy in neighbors && nodes[i].Proxy.ID == fks[i].value
              else nodes[i].Proxy == before[i]
  {
    AskedAreFirstOccurrences(fks);
    forall j | 0 <= j < |neighbors|
      ensures Some(neighbors[j].ID) in fks
    {
      assert RecordIDs(records)[j] == neighbors[j].ID && records[j] in records;
    }
    assert neighbors[..|neighbors|] == neighbors;
  }

  // ------------------------------------------------------------------------
  // Loading twice through one query
  // ------------------------------------------------------------------------

  /** The query answers from a table of proxies. */
  ghost predicate Backed(query: ProxyQuery, table: Table<ProxyRecord>) {
    && (forall record <- table.records :: table.key(record) == Some(record.id))
    && (forall ps :: query.rows(ps) == Ok(Matching(table, table.records, ps)))
  }

  /** The proxy this foreign key names is stored and satisfies the predicates. */
  ghost predicate Found(table: Table<ProxyRecord>, predicates: seq<Predicate>, fk: Option<int>) {
    exists record <- table.records :: fk == Some(record.id) && Satisfies(table, record, predicates)
  }

  /** Every node points to the proxy it refers to, where that is found, and to what
      it did before where it is not. */
  ghost predicate AllServed(nodes: seq<Account>, fks: seq<Option<int>>, before: seq<Proxy?>, table: Table<ProxyRecord>,
                            predicates: seq<Predicate>)
    requires |nodes| == |fks| == |before|
    reads nodes`Proxy
  {
    forall i :: 0 <= i < |nodes| ==>
      if Found(table, predicates, fks[i]) then nodes[i].Proxy != null && fks[i] == Some(nodes[i].Proxy.ID)
      else nodes[i].Proxy == before[i]
  }

  lemma {:induction false} FoundIsReturned(table: Table<ProxyRecord>, predicates: seq<Predicate>, ids: seq<int>,
                                           fk: int)
    requires forall record <- table.records :: table.key(record) == Some(record.id)
    requires fk in ids
    ensures fk in RecordIDs(Matching(table, table.records, predicates + [Among(ids)])) <==>
            Found(table, predicates, Some(fk))
  {
    var records := Matching(table, table.records, predicates + [Among(ids)]);
    forall record: ProxyRecord
      ensures record in records <==>
              record in table.records && Satisfies(table, record, predicates) && record.id in ids
    {
      MatchingMembers(table, table.records, predicates + [Among(ids)], record);
      SatisfiesMore(table, record, predicates, ids);
    }
    if fk in RecordIDs(records) {
      var j :| 0 <= j < |records| && RecordIDs(records)[j] == fk;
      assert records[j] in records;
    }
    if Found(table, predicates, Some(fk)) {
      var record :| record in table.records && Some(fk) == Some(record.id) && Satisfies(table, record, predicates);
      assert record in records;
      var j :| 0 <= j < |records| && records[j] == record;
      assert RecordIDs(records)[j] == fk;
    }
  }

  lemma {:induction false} OnlyAskedReturned(table: Table<ProxyRecord>, predicates: seq<Predicate>, ids: seq<int>)
    requires forall record <- table.records :: table.key(record) == Some(record.id)
    ensures OnlyAsked(Matching(table, table.records, predicates + [Among(ids)]), ids)
  {
    forall record <- Matching(table, table.records, predicates + [Among(ids)])
      ensures record.id in ids
    {
      MatchingMembers(table, table.records, predicates + [Among(ids)], record);
      SatisfiesMore(table, record, predicates, ids);
    }
  }

  lemma {:induction false} AllReferred(records: seq<ProxyRecord>, fks: seq<Option<int>>)
    requires OnlyAsked(records, AskedIDs(fks))
    ensures UnaskedRecord(records, fks).None?
  {
    if records != [] {
      AskedAreFirstOccurrences(fks);
      assert records[0] in records;
      AllReferred(records[1..], fks);
    }
  }

  /** A load from a table succeeds and serves every node by the predicates the query
      had before. */
  method LoadFromTable(query: ProxyQuery, ghost table: Table<ProxyRecord>, nodes: seq<Account>)
    returns (err: Option<LoadError>)
    requires Backed(query, table) && InvalidField(PROXY_COLUMNS, query.Fields).None?
    modifies nodes`Proxy, query`Predicates
    ensures err.None? && query.Predicates == Restricted(old(query.Predicates), AskedIDs(ForeignKeys(nodes)))
    ensures AllServed(nodes, ForeignKeys(nodes), old(Proxies(nodes)), table, old(query.Predicates))
  {
    ghost var fks, before, predicates := ForeignKeys(nodes), Proxies(nodes), query.Predicates;
    ghost var neighbors, stop;
    err, neighbors, stop := LoadProxy(query, nodes);
    assert ForeignKeys(nodes) == fks;
    ServedFromTable(query, table, predicates, nodes, fks, before, neighbors, stop, err);
  }

  lemma {:induction false} ServedFromTable(
      query: ProxyQuery, table: Table<ProxyRecord>, predicates: seq<Predicate>, nodes: seq<Account>,
      fks: seq<Option<int>>, before: seq<Proxy?>, neighbors: seq<Proxy>, stop: nat, err: Option<LoadError>)
    requires Backed(query, table) && InvalidField(PROXY_COLUMNS, query.Fields).None?
    requires |nodes| == |fks| == |before|
    requires StopsAt(neighbors, fks, stop) && ProxiesLoaded(nodes, fks, before, neighbors, stop)
    requires if AskedIDs(fks) == [] then err.None? && neighbors == []
             else Outcome(query, predicates + [Among(AskedIDs(fks))], query.Fields, neighbors, stop, err)
    ensures err.None? && AllServed(nodes, fks, before, table, predicates)
  {
    var ids := AskedIDs(fks);
    AskedAreFirstOccurrences(fks);
    if ids == [] {
      assert forall i :: 0 <= i < |fks| ==> fks[i] in fks && fks[i].None?;
    } else {
      var records := Matching(table, table.records, predicates + [Among(ids)]);
      OnlyAskedReturned(table, predicates, ids);
      LoadIsPerNodeLookup(nodes, fks, before, neighbors, records, stop);
      forall i | 0 <= i < |nodes| && fks[i].Some?
        ensures fks[i].value in RecordIDs(records) <==> Found(table, predicates, fks[i])
      {
        assert fks[i] in fks;
        FoundIsReturned(table, predicates, ids, fks[i].value);
      }
    }
  }

  lemma {:induction false} FoundAgain(table: Table<ProxyRecord>, predicates: seq<Predicate>, ids: seq<int>,
                                      fk: Option<int>)
    requires forall record <- table.records :: table.key(record) == Some(record.id)
    ensures Found(table, Restricted(predicates, ids), fk) <==>
            Found(table, predicates, fk) && (ids == [] || fk.value in ids)
  {
    forall record <- table.records
      ensures Satisfies(table, record, predicates + [Among(ids)]) <==>
              Satisfies(table, record, predicates) && record.id in ids
    {
      SatisfiesMore(table, record, predicates, ids);
    }
  }

  /** A query keeps the restriction of every load. Nodes loaded through one that was
      loaded for `ids` before are served as through one that was not, if and only if
      every proxy found for them was asked for then, or is the one they already
      point to. */
  lemma {:induction false} ReuseIsExact(
      nodes: seq<Account>, fks: seq<Option<int>>, before: seq<Proxy?>, table: Table<ProxyRecord>,
      predicates: seq<Predicate>, ids: seq<int>)
    requires |nodes| == |fks| == |before| && forall record <- table.records :: table.key(record) == Some(record.id)
    requires AllServed(nodes, fks, before, table, Restricted(predicates, ids))
    ensures AllServed(nodes, fks, before, table, predicates) <==> Covers(fks, before, table, predicates, ids)
  {
    forall i | 0 <= i < |nodes|
      ensures Found(table, Restricted(predicates, ids), fks[i]) <==>
              Found(table, predicates, fks[i]) && (ids == [] || fks[i].value in ids)
    {
      FoundAgain(table, predicates, ids, fks[i]);
    }
  }

  /** The nodes are served by the restricted predicates, which is what a fresh query
      would do exactly when `ids` covers what is found for them. */
  ghost predicate ServedAgain(nodes: seq<Account>, fks: seq<Option<int>>, before: seq<Proxy?>,
                              table: Table<ProxyRecord>, predicates: seq<Predicate>, ids: seq<int>)
    requires |nodes| == |fks| == |before|
    reads nodes`Proxy
  {
    && AllServed(nodes, fks, before, table, Restricted(predicates, ids))
    && (AllServed(nodes, fks, before, table, predicates) <==> Covers(fks, before, table, predicates, ids))
  }

  ghost predicate Covers(fks: seq<Option<int>>, before: seq<Proxy?>, table: Table<ProxyRecord>,
                         predicates: seq<Predicate>, ids: seq<int>)
    requires |fks| == |before|
  {
    forall i :: 0 <= i < |fks| && Found(table, predicates, fks[i]) ==>
      ids == [] || fks[i].value in ids || (before[i] != null && before[i].ID == fks[i].value)
  }

  /** Two loads through one query: both succeed, and the second serves its nodes as
      a fresh query would exactly when the first asked for the proxies found for
      them. `between` is what those nodes pointed to in between. */
  method LoadTwice(query: ProxyQuery, ghost table: Table<ProxyRecord>, first: seq<Account>, second: seq<Account>)
    returns (firstErr: Option<LoadError>, secondErr: Option<LoadError>, ghost between: seq<Proxy?>)
    requires Backed(query, table) && InvalidField(PROXY_COLUMNS, query.Fields).None?
    modifies first`Proxy, second`Proxy, query`Predicates
    ensures firstErr.None? && secondErr.None? && |between| == |second|
    ensures var once := Restricted(old(query.Predicates), old(AskedIDs(ForeignKeys(first))));
            query.Predicates == Restricted(once, old(AskedIDs(ForeignKeys(second))))
    ensures forall i :: 0 <= i < |second| && second[i] !in first ==> between[i] == old(second[i].Proxy)
    ensures var ids := old(AskedIDs(ForeignKeys(first)));
            ServedAgain(second, old(ForeignKeys(second)), between, table, old(query.Predicates), ids)
  {
    ghost var predicates, ids, fks := query.Predicates, AskedIDs(ForeignKeys(first)), ForeignKeys(second);
    firstErr := LoadFromTable(query, table, first);
    between := Proxies(second);
    secondErr := LoadAgain(query, table, second, fks, predicates, ids);
  }

  /** The second of two loads. */
  method LoadAgain(query: ProxyQuery, ghost table: Table<ProxyRecord>, nodes: seq<Account>, ghost fks: seq<Option<int>>,
                   ghost predicates: seq<Predicate>, ghost ids: seq<int>)
    returns (err: Option<LoadError>)
    requires Backed(query, table) && InvalidField(PROXY_COLUMNS, query.Fields).None?
    requires fks == ForeignKeys(nodes) && query.Predicates == Restricted(predicates, ids)
    modifies nodes`Proxy, query`Predicates
    ensures err.None? && query.Predicates == Restricted(Restricted(predicates, ids), AskedIDs(fks))
    ensures ServedAgain(nodes, fks, old(Proxies(nodes)), table, predicates, ids)
  {
    ghost var before := Proxies(nodes);
    err := LoadFromTable(query, table, nodes);
    assert ForeignKeys(nodes) == fks;
    ReuseIsExact(nodes, fks, before, table, predicates, ids);
  }

  const TWO_PROXIES: Table<ProxyRecord> :=
    Table([ProxyRecord(5), ProxyRecord(6)], (r: ProxyRecord) => Some(r.id), (term: int, r: ProxyRecord) => true)

  method NewQuery() returns (query: ProxyQuery)
    ensures fresh(query) && Backed(query, TWO_PROXIES) && query.Fields == [] && query.Predicates == []
  {
    query := new ProxyQuery([], (ps: seq<Predicate>) => Ok(Matching(TWO_PROXIES, TWO_PROXIES.records, ps)));
  }

  method NewAccount(fk: int) returns (account: Account)
    ensures fresh(account) && account.ForeignKey() == Some(fk) && account.Proxy == null
    ensures ForeignKeys([account]) == [Some(fk)] && AskedIDs([Some(fk)]) == [fk]
  {
    account := new Account();
    account.ProxyID := new IntCell(fk);
    assert ForeignKeys([account]) == [account.ForeignKey()];
  }

  lemma {:induction false} SixIsStored()
    ensures Found(TWO_PROXIES, [], Some(6)) && !Found(TWO_PROXIES, Restricted([], [5]), Some(6))
  {
    assert TWO_PROXIES.records[1] == ProxyRecord(6);
    assert ProxyRecord(6) in TWO_PROXIES.records && Satisfies(TWO_PROXIES, ProxyRecord(6), []);
    FoundAgain(TWO_PROXIES, [], [5], Some(6));
  }

  /** A second load that misses a stored proxy: the first asks for proxy 5, the
      second for proxy 6. */
  method SecondLoadMisses() returns (account: Account)
    ensures account.ForeignKey() == Some(6) && account.Proxy == null
  {
    var query := NewQuery();
    var first := NewAccount(5);
    account := NewAccount(6);
    SixIsStored();
    var e, f;
    ghost var between;
    e, f, between := LoadTwice(query, TWO_PROXIES, [first], [account]);
    assert [account][0] !in [first] && [account][0].Proxy == between[0];
  }

  /** A fresh query finds it. */
  method FreshLoadFinds() returns (account: Account)
    ensures account.ForeignKey() == Some(6) && account.Proxy != null && account.Proxy.ID == 6
  {
    var query := NewQuery();
    account := NewAccount(6);
    SixIsStored();
    var e := LoadFromTable(query, TWO_PROXIES, [account]);
    assert [account][0] == account;
  }

  function BucketSizes(nodes: seq<Account>, fks: seq<Option<int>>, ids: seq<int>): nat
    requires |nodes| == |fks|
  {
    if ids == [] then 0
    else BucketSizes(nodes, fks, ids[..|ids|-1]) + |Sharing(nodes, fks, ids[|ids|-1])|
  }

  lemma {:induction false} BucketSizesExtended(nodes: seq<Account>, fks: seq<Option<int>>, ids: seq<int>)
    requires |nodes| == |fks| && nodes != [] && NoDup(ids)
    ensures var k := |nodes| - 1;
            BucketSizes(nodes, fks, ids) ==
            BucketSizes(nodes[..k], fks[..k], ids) + if fks[k].Some? && fks[k].value in ids then 1 else 0
  {
    if ids != [] {
      BucketSizesExtended(nodes, fks, ids[..|ids|-1]);
      assert ids == ids[..|ids|-1] + [ids[|ids|-1]];
    }
  }

  /** The buckets partition the nodes that have a foreign key: such a node is in
      the bucket of its key and in no other, and none is counted twice. */
  lemma {:induction false} BucketsPartition(nodes: seq<Account>, fks: seq<Option<int>>, ids: seq<int>)
    requires |nodes| == |fks| && NoDup(ids)
    requires forall i :: 0 <= i < |fks| && fks[i].Some? ==> fks[i].value in ids
    ensures BucketSizes(nodes, fks, ids) == |NonNull(fks)|
  {
    if nodes == [] {
      EmptyBuckets(ids);
    } else {
      var k := |nodes| - 1;
      BucketsPartition(nodes[..k], fks[..k], ids);
      BucketSizesExtended(nodes, fks, ids);
      assert |NonNull(fks)| == |NonNull(fks[..k])| + if fks[k].None? then 0 else 1;
    }
  }

  lemma {:induction false} EmptyBuckets(ids: seq<int>)
    ensures BucketSizes([], [], ids) == 0
  {
    if ids != [] {
      EmptyBuckets(ids[..|ids|-1]);
    }
  }
}
