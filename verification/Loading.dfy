/** What the three kinds of edge loaders share. */
module Loading {
  import opened Prelude
  import opened RowCodec
  import opened Entities

  datatype LoadError =
    | DbError(msg: string)
    | ValidationError(field: Column)
    | ScanError(cause: AssignError)
    | UnexpectedNode(id: int)        // a neighbour whose ID was not asked for
    | NilForeignKey(child: int)      // a child whose foreign key is NULL
    | UnexpectedForeignKey(fk: int, child: int)
    | NilDereference                 // the run-time panic of assigning to a nil node
    | FailedAssertion                // the run-time panic of asserting a holder's type

  /** A predicate of a child query: one its caller put there, or the restriction a
      loader appended to it. A query keeps every predicate it was ever given. */
  datatype Predicate = Filter(term: int) | Among(ids: seq<int>)

  /** What a database answers from: records with the key loaders restrict by, which
      may be NULL, and what the other predicates accept. */
  datatype Table<!T> = Table(records: seq<T>, key: T -> Option<int>, accepts: (int, T) -> bool)

  predicate Keyed<T>(table: Table<T>, record: T, ids: seq<int>) {
    table.key(record).Some? && table.key(record).value in ids
  }

  predicate Satisfies<T>(table: Table<T>, record: T, predicates: seq<Predicate>) {
    forall p <- predicates ::
      match p
      case Filter(term) => table.accepts(term, record)
      case Among(ids) => Keyed(table, record, ids)
  }

  /** The records that satisfy every predicate, in order. */
  function Matching<T>(table: Table<T>, records: seq<T>, predicates: seq<Predicate>): seq<T> {
    if records == [] then []
    else
      Matching(table, records[..|records|-1], predicates) +
      if Satisfies(table, records[|records|-1], predicates) then [records[|records|-1]] else []
  }

  lemma {:induction false} MatchingMembers<T>(table: Table<T>, records: seq<T>, predicates: seq<Predicate>, record: T)
    ensures record in Matching(table, records, predicates) <==>
            record in records && Satisfies(table, record, predicates)
  {
    if records != [] {
      assert records == records[..|records|-1] + [records[|records|-1]];
      MatchingMembers(table, records[..|records|-1], predicates, record);
    }
  }

  /** A query returns exactly the records that every filter accepts and whose key,
      which is not NULL then, is in every list. */
  lemma {:induction false} MatchingMeaning<T>(table: Table<T>, predicates: seq<Predicate>, record: T)
    ensures record in Matching(table, table.records, predicates) <==>
            && record in table.records
            && (forall term :: Filter(term) in predicates ==> table.accepts(term, record))
            && (forall ids :: Among(ids) in predicates ==>
                 table.key(record) != None && table.key(record).value in ids)
  {
    MatchingMembers(table, table.records, predicates, record);
  }

  lemma {:induction false} SatisfiesMore<T>(table: Table<T>, record: T, predicates: seq<Predicate>, ids: seq<int>)
    ensures Satisfies(table, record, predicates + [Among(ids)]) <==>
            Satisfies(table, record, predicates) && Keyed(table, record, ids)
  {
    var more := predicates + [Among(ids)];
    assert Among(ids) in more;
    assert forall p <- predicates :: p in more;
    assert forall p <- more :: p in predicates || p == Among(ids);
  }

  /** The records with this key that satisfy the predicates, in order. */
  function Stored<T>(table: Table<T>, records: seq<T>, predicates: seq<Predicate>, id: int): seq<T> {
    if records == [] then []
    else
      var last := records[|records|-1];
      Stored(table, records[..|records|-1], predicates, id) +
      if table.key(last) == Some(id) && Satisfies(table, last, predicates) then [last] else []
  }

  lemma {:induction false} StoredMembers<T>(table: Table<T>, records: seq<T>, predicates: seq<Predicate>, id: int,
                                            record: T)
    ensures record in Stored(table, records, predicates, id) <==>
            record in Matching(table, records, predicates) && table.key(record) == Some(id)
  {
    if records != [] {
      StoredMembers(table, records[..|records|-1], predicates, id, record);
    }
  }

  /** One more restriction keeps the records of the keys it names and drops the others. */
  lemma {:induction false} StoredAgain<T>(table: Table<T>, records: seq<T>, predicates: seq<Predicate>,
                                          ids: seq<int>, id: int)
    ensures Stored(table, records, predicates + [Among(ids)], id) ==
            if id in ids then Stored(table, records, predicates, id) else []
  {
    if records != [] {
      StoredAgain(table, records[..|records|-1], predicates, ids, id);
      SatisfiesMore(table, records[|records|-1], predicates, ids);
    }
  }

  /** The IDs of the nodes, in order. */
  function IDs(nodes: seq<Account>): (ids: seq<int>)
    reads nodes`ID
    ensures |ids| == |nodes| && forall i :: 0 <= i < |nodes| ==> ids[i] == nodes[i].ID
  {
    if nodes == [] then [] else IDs(nodes[..|nodes|-1]) + [nodes[|nodes|-1].ID]
  }

  /** The node an index keyed by ID ends up with: with duplicate IDs the last one wins. */
  function Owner<T>(nodes: seq<T>, ids: seq<int>, id: int): (n: Option<T>)
    requires |nodes| == |ids|
    ensures n.None? <==> id !in ids
    ensures n.Some? ==> n.value in nodes
  {
    var k := LastIndex(ids, id);
    if k < 0 then None else Some(nodes[k])
  }

  /** `m` is the index `map[ID]*node` of the nodes. */
  ghost predicate IndexedByID<T>(m: map<int, T>, nodes: seq<T>, ids: seq<int>)
    requires |nodes| == |ids|
  {
    forall id :: (id in m <==> id in ids) && (id in m ==> Some(m[id]) == Owner(nodes, ids, id))
  }

  lemma {:induction false} IndexStep<T>(m: map<int, T>, nodes: seq<T>, ids: seq<int>, i: nat)
    requires i < |nodes| == |ids|
    requires IndexedByID(m, nodes[..i], ids[..i])
    ensures IndexedByID(m[ids[i] := nodes[i]], nodes[..i+1], ids[..i+1])
  {
    assert ids[..i+1] == ids[..i] + [ids[i]];
    assert ids[..i+1][..i] == ids[..i];
    forall id
      ensures LastIndex(ids[..i+1], id) == if id == ids[i] then i else LastIndex(ids[..i], id)
    {
    }
  }

  lemma {:induction false} OwnerHasID(nodes: seq<Account>, ids: seq<int>, id: int)
    requires |nodes| == |ids|
    requires forall i :: 0 <= i < |nodes| ==> ids[i] == nodes[i].ID
    ensures Owner(nodes, ids, id).Some? ==> Owner(nodes, ids, id).value.ID == id
  {
  }

  /** The index loses a node if and only if a later node has the same ID. */
  lemma {:induction false} LostIsExact<T>(nodes: seq<T>, ids: seq<int>, i: nat)
    requires i < |nodes| == |ids| && NoDup(nodes)
    ensures Owner(nodes, ids, ids[i]) != Some(nodes[i]) <==> exists j :: i < j < |ids| && ids[j] == ids[i]
  {
    var k := LastIndex(ids, ids[i]);
    assert ids[i] in ids;
    assert i <= k;
  }

  /** So it keeps every node if and only if the IDs are distinct. */
  lemma {:induction false} DistinctOwners<T>(nodes: seq<T>, ids: seq<int>)
    requires |nodes| == |ids| && NoDup(nodes)
    ensures NoDup(ids) <==> forall i :: 0 <= i < |nodes| ==> Owner(nodes, ids, ids[i]) == Some(nodes[i])
  {
    forall i | 0 <= i < |nodes|
      ensures Owner(nodes, ids, ids[i]) != Some(nodes[i]) <==> exists j :: i < j < |ids| && ids[j] == ids[i]
    {
      LostIsExact(nodes, ids, i);
    }
  }

  lemma {:induction false} OwnersWhenDistinct<T>(nodes: seq<T>, ids: seq<int>)
    requires |nodes| == |ids| && NoDup(ids)
    ensures forall i :: 0 <= i < |nodes| ==> Owner(nodes, ids, ids[i]) == Some(nodes[i])
  {
    forall i | 0 <= i < |nodes|
      ensures Owner(nodes, ids, ids[i]) == Some(nodes[i])
    {
      assert ids[i] in ids;
      assert LastIndex(ids, ids[i]) == i;
    }
  }

  /** Two nodes with one ID: the index keeps the second. */
  lemma {:induction false} DuplicateIsLost<T>(x: T, y: T)
    requires x != y
    ensures Owner([x, y], [7, 7], 7) == Some(y)
  {
  }
}
