/** Eager loading of a one-to-many edge whose children may have no parent:
    `loadAdoptionDecisions` of the auth identity query. */
module LoadNullableO2M {
  import opened Prelude
  import opened RowCodec
  import opened QuerySpec
  import opened Entities
  import opened Loading
  import opened LoadO2M

  function IdentityIDs(nodes: seq<AuthIdentity>): (ids: seq<int>)
    reads nodes`ID
    ensures |ids| == |nodes| && forall i :: 0 <= i < |nodes| ==> ids[i] == nodes[i].ID
  {
    if nodes == [] then [] else IdentityIDs(nodes[..|nodes|-1]) + [nodes[|nodes|-1].ID]
  }

  function DecisionKeys(decisions: seq<AdoptionDecision>): (fks: seq<Option<int>>)
    ensures |fks| == |decisions| && forall i :: 0 <= i < |decisions| ==> fks[i] == decisions[i].IdentityID
  {
    seq(|decisions|, i requires 0 <= i < |decisions| => decisions[i].IdentityID)
  }

  /** The edge once the first `k` decisions were attached. */
  ghost predicate DecisionsLoaded(nodes: seq<AuthIdentity>, ids: seq<int>, decisions: seq<AdoptionDecision>, k: nat)
    requires |nodes| == |ids| && k <= |decisions|
    reads nodes`AdoptionDecisions
  {
    forall i :: 0 <= i < |nodes| ==>
      nodes[i].AdoptionDecisions ==
      if Owner(nodes, ids, ids[i]) == Some(nodes[i])
      then ChildrenOf(decisions[..k], DecisionKeys(decisions)[..k], ids[i]) else []
  }

  /** The error for decision `k`, the first with a NULL or unknown parent. */
  function DecisionError(decisions: seq<AdoptionDecision>, k: nat): Option<LoadError> {
    if k >= |decisions| then None
    else
      match decisions[k].IdentityID
      case None => Some(NilForeignKey(decisions[k].ID))
      case Some(fk) => Some(UnexpectedForeignKey(fk, decisions[k].ID))
  }

  method IndexIdentities(nodes: seq<AuthIdentity>) returns (fks: seq<int>, nodeids: map<int, AuthIdentity>)
    modifies nodes`AdoptionDecisions
    ensures fks == IdentityIDs(nodes) && IndexedByID(nodeids, nodes, fks)
    ensures forall x <- nodes :: x.AdoptionDecisions == []
  {
    ghost var ids := IdentityIDs(nodes);
    fks, nodeids := [], map[];
    for i := 0 to |nodes|
      invariant fks == ids[..i] && IndexedByID(nodeids, nodes[..i], ids[..i])
      invariant forall x <- nodes[..i] :: x.AdoptionDecisions == []
    {
      IndexStep(nodeids, nodes, ids, i);
      fks := fks + [nodes[i].ID];
      nodeids := nodeids[nodes[i].ID := nodes[i]];
      nodes[i].AdoptionDecisions := [];
    }
    assert nodes[..|nodes|] == nodes && ids[..|ids|] == ids;
  }

  method AttachDecision(decisions: seq<AdoptionDecision>, k: nat, node: AuthIdentity, nodes: seq<AuthIdentity>,
                        ghost ids: seq<int>)
    requires k < |decisions| && ids == IdentityIDs(nodes) && node in nodes
    requires decisions[k].IdentityID.Some? && Some(node) == Owner(nodes, ids, decisions[k].IdentityID.value)
    requires DecisionsLoaded(nodes, ids, decisions, k)
    modifies nodes`AdoptionDecisions
    ensures DecisionsLoaded(nodes, ids, decisions, k + 1)
  {
    node.AdoptionDecisions := node.AdoptionDecisions + [decisions[k]];
    ghost var fks := DecisionKeys(decisions);
    forall i | 0 <= i < |nodes|
      ensures nodes[i].AdoptionDecisions ==
              if Owner(nodes, ids, ids[i]) == Some(nodes[i])
              then ChildrenOf(decisions[..k+1], fks[..k+1], ids[i]) else []
    {
      ChildrenOfExtended(decisions, fks, ids[i], k);
      if nodes[i] == node {
        assert ids[i] == decisions[k].IdentityID.value;
      } else {
        assert nodes[i].AdoptionDecisions == old(nodes[i].AdoptionDecisions);
      }
    }
  }

  method AttachDecisions(decisions: seq<AdoptionDecision>, nodeids: map<int, AuthIdentity>, nodes: seq<AuthIdentity>,
                         ghost ids: seq<int>)
    returns (err: Option<LoadError>, ghost stop: nat)
    requires ids == IdentityIDs(nodes) && IndexedByID(nodeids, nodes, ids)
    requires forall x <- nodes :: x.AdoptionDecisions == []
    modifies nodes`AdoptionDecisions
    ensures StopsAt(DecisionKeys(decisions), ids, stop)
    ensures DecisionsLoaded(nodes, ids, decisions, stop)
    ensures err == DecisionError(decisions, stop)
  {
    ghost var fks := DecisionKeys(decisions);
    for k := 0 to |decisions|
      invariant Parented(fks[..k], ids)
      invariant DecisionsLoaded(nodes, ids, decisions, k)
    {
      var n := decisions[k];
      if n.IdentityID.None? {
        return Some(NilForeignKey(n.ID)), k;
      }
      var fk := n.IdentityID.value;
      if fk !in nodeids {
        return Some(UnexpectedForeignKey(fk, n.ID)), k;
      }
      assert fks[k] == Some(fk) && fk in ids;
      AttachDecision(decisions, k, nodeids[fk], nodes, ids);
    }
    return None, |decisions|;
  }

  datatype DecisionRecord = DecisionRecord(id: int, identityID: Option<int>)

  const DECISION_COLUMNS: seq<Column> := [FieldID, FieldIdentityID, FieldCreatedAt]

  /** The decision query as the loader uses it. `rows` is what the database returns
      for its predicates. */
  class DecisionQuery {
    var Fields: seq<Column>
    var Predicates: seq<Predicate>
    const rows: seq<Predicate> -> Result<seq<DecisionRecord>, LoadError>

    constructor (fields: seq<Column>, rows: seq<Predicate> -> Result<seq<DecisionRecord>, LoadError>)
      ensures Fields == fields && Predicates == [] && this.rows == rows
    {
      Fields, Predicates := fields, [];
      this.rows := rows;
    }

    /** Decodes the selected columns only: without its column the foreign key stays nil. */
    method All() returns (r: Result<seq<AdoptionDecision>, LoadError>)
      ensures match DecisionAnswer(rows, Predicates, Fields)
              case Err(e) => r == Err(e)
              case Ok(records) =>
                var columns := ColumnsOf(DECISION_COLUMNS, true, Fields, []);
                r.Ok? && DecisionsFrom(r.value, records, FieldIdentityID in columns)
    {
      var invalid := InvalidField(DECISION_COLUMNS, Fields);
      if invalid.Some? {
        return Err(ValidationError(invalid.value));
      }
      var columns := BuildColumns(DECISION_COLUMNS, Fields, []);
      var fetched := rows(Predicates);
      if fetched.Err? {
        return Err(fetched.error);
      }
      var records, nodes := fetched.value, [];
      for i := 0 to |records|
        invariant DecisionsFrom(nodes, records[..i], FieldIdentityID in columns)
      {
        var node := new AdoptionDecision(records[i].id,
                                        if FieldIdentityID in columns then records[i].identityID else None);
        nodes := nodes + [node];
      }
      assert records[..|records|] == records;
      return Ok(nodes);
    }
  }

  /** What `All` answers, as records. */
  function DecisionAnswer(rows: seq<Predicate> -> Result<seq<DecisionRecord>, LoadError>, predicates: seq<Predicate>,
                          fields: seq<Column>)
    : Result<seq<DecisionRecord>, LoadError>
  {
    match InvalidField(DECISION_COLUMNS, fields)
    case Some(f) => Err(ValidationError(f))
    case None => rows(predicates)
  }

  ghost predicate DecisionsFrom(decisions: seq<AdoptionDecision>, records: seq<DecisionRecord>, withKey: bool) {
    |decisions| == |records| &&
    forall i :: 0 <= i < |decisions| ==>
      decisions[i].ID == records[i].id && decisions[i].IdentityID == if withKey then records[i].identityID else None
  }

  method FetchDecisions(query: DecisionQuery, ids: seq<int>) returns (r: Result<seq<AdoptionDecision>, LoadError>)
    modifies query`Fields, query`Predicates
    ensures query.Fields == WithKey(old(query.Fields), FieldIdentityID)
    ensures query.Predicates == old(query.Predicates) + [Among(ids)]
    ensures match DecisionAnswer(query.rows, query.Predicates, query.Fields)
            case Err(e) => r == Err(e)
            case Ok(records) => r.Ok? && DecisionsFrom(r.value, records, true)
  {
    if |query.Fields| > 0 {
      query.Fields := AddOnce(query.Fields, FieldIdentityID);
      ProjectionKeepsKeys(DECISION_COLUMNS, true, query.Fields, []);
    }
    query.Predicates := query.Predicates + [Among(ids)];
    r := query.All();
  }

  /** `loadAdoptionDecisions`, with the child objects as a ghost result. The children
      before the first with a NULL or unknown parent are attached, in result order,
      and that child decides the error. The parents are the stored ones, whatever
      was selected. */
  method LoadAdoptionDecisions(query: DecisionQuery, nodes: seq<AuthIdentity>)
    returns (err: Option<LoadError>, ghost decisions: seq<AdoptionDecision>, ghost stop: nat)
    modifies nodes`AdoptionDecisions, query`Fields, query`Predicates
    ensures query.Fields == WithKey(old(query.Fields), FieldIdentityID)
    ensures query.Predicates == old(query.Predicates) + [Among(IdentityIDs(nodes))]
    ensures Attached(nodes, IdentityIDs(nodes), decisions, stop)
    ensures Ended(query, decisions, stop, err)
  {
    var fks, nodeids := IndexIdentities(nodes);
    err, decisions, stop := FetchAndAttach(query, fks, nodeids, nodes);
  }

  /** The loader after its first loop. */
  method FetchAndAttach(query: DecisionQuery, fks: seq<int>, nodeids: map<int, AuthIdentity>, nodes: seq<AuthIdentity>)
    returns (err: Option<LoadError>, ghost decisions: seq<AdoptionDecision>, ghost stop: nat)
    requires fks == IdentityIDs(nodes) && IndexedByID(nodeids, nodes, fks)
    requires forall x <- nodes :: x.AdoptionDecisions == []
    modifies nodes`AdoptionDecisions, query`Fields, query`Predicates
    ensures query.Fields == WithKey(old(query.Fields), FieldIdentityID)
    ensures query.Predicates == old(query.Predicates) + [Among(fks)]
    ensures fks == IdentityIDs(nodes) && Attached(nodes, fks, decisions, stop)
    ensures Ended(query, decisions, stop, err)
  {
    var fetched := FetchDecisions(query, fks);
    if fetched.Err? {
      return Some(fetched.error), [], 0;
    }
    decisions := fetched.value;
    err, stop := AttachDecisions(fetched.value, nodeids, nodes, fks);
  }

  /** The edge after loading: the children before the first with a NULL or unknown
      parent were attached. */
  ghost predicate Attached(nodes: seq<AuthIdentity>, ids: seq<int>, decisions: seq<AdoptionDecision>, stop: nat)
    requires |nodes| == |ids|
    reads nodes`AdoptionDecisions
  {
    StopsAt(DecisionKeys(decisions), ids, stop) && DecisionsLoaded(nodes, ids, decisions, stop)
  }

  /** How the load ended: on an invalid field, with the error of the query, or with
      one that names the first child that was not attached, if there is one. */
  ghost predicate Ended(query: DecisionQuery, decisions: seq<AdoptionDecision>, stop: nat, err: Option<LoadError>)
    reads query
  {
    var invalid, answer := InvalidField(DECISION_COLUMNS, query.Fields), query.rows(query.Predicates);
    if invalid.Some? then err == Some(ValidationError(invalid.value)) && decisions == []
    else if answer.Err? then err == Some(answer.error) && decisions == []
    else
      && DecisionsFrom(decisions, answer.value, true) && stop <= |decisions|
      && if stop == |decisions| then err.None?
         else
           var (id, parent) := (decisions[stop].ID, decisions[stop].IdentityID);
           err == Some(if parent.None? then NilForeignKey(id) else UnexpectedForeignKey(parent.value, id))
  }

  /** The load fails if and only if some child has a NULL or unknown parent. */
  lemma {:induction false} FailureIsExact(decisions: seq<AdoptionDecision>, ids: seq<int>, stop: nat)
    requires StopsAt(DecisionKeys(decisions), ids, stop)
    ensures DecisionError(decisions, stop).Some? <==>
            exists d <- decisions :: d.IdentityID.None? || d.IdentityID.value !in ids
  {
    var fks := DecisionKeys(decisions);
    if stop < |decisions| {
      assert fks[stop] == decisions[stop].IdentityID && decisions[stop] in decisions;
    } else {
      forall d <- decisions
        ensures d.IdentityID.Some? && d.IdentityID.value in ids
      {
        var j :| 0 <= j < |decisions| && decisions[j] == d;
        assert fks[j] == d.IdentityID;
      }
    }
  }

  // ------------------------------------------------------------------------
  // Loading from a table
  // ------------------------------------------------------------------------

  /** The query answers from a table of decisions. */
  ghost predicate Backed(query: DecisionQuery, table: Table<DecisionRecord>) {
    && (forall record <- table.records :: table.key(record) == record.identityID)
    && (forall ps :: query.rows(ps) == Ok(Matching(table, table.records, ps)))
  }

  /** Every node that owns its ID holds the stored decisions of that ID, in order. */
  ghost predicate AllServed(nodes: seq<AuthIdentity>, ids: seq<int>, table: Table<DecisionRecord>,
                            predicates: seq<Predicate>)
    requires |nodes| == |ids|
    reads nodes`AdoptionDecisions
  {
    forall i :: 0 <= i < |nodes| ==>
      if Owner(nodes, ids, ids[i]) == Some(nodes[i])
      then DecisionsFrom(nodes[i].AdoptionDecisions, Stored(table, table.records, predicates, ids[i]), true)
      else nodes[i].AdoptionDecisions == []
  }

  lemma {:induction false} AllKnown(table: Table<DecisionRecord>, predicates: seq<Predicate>, ids: seq<int>,
                                    decisions: seq<AdoptionDecision>, stop: nat)
    requires forall record <- table.records :: table.key(record) == record.identityID
    requires DecisionsFrom(decisions, Matching(table, table.records, predicates + [Among(ids)]), true)
    requires StopsAt(DecisionKeys(decisions), ids, stop)
    ensures stop == |decisions| && DecisionError(decisions, stop).None?
  {
    var records := Matching(table, table.records, predicates + [Among(ids)]);
    if stop < |decisions| {
      assert DecisionKeys(decisions)[stop] == records[stop].identityID;
      MatchingMembers(table, table.records, predicates + [Among(ids)], records[stop]);
      SatisfiesMore(table, records[stop], predicates, ids);
    }
  }

  /** Decisions are selected by position, so what is selected from an answer
      restricted to an identity is what is stored for it. */
  lemma {:induction false} SelectedAreStored(table: Table<DecisionRecord>, predicates: seq<Predicate>, ids: seq<int>,
                                             decisions: seq<AdoptionDecision>, id: int)
    requires forall record <- table.records :: table.key(record) == record.identityID
    requires DecisionsFrom(decisions, Matching(table, table.records, predicates + [Among(ids)]), true) && id in ids
    ensures DecisionsFrom(ChildrenOf(decisions, DecisionKeys(decisions), id),
                          Stored(table, table.records, predicates, id), true)
  {
    var records, fks := Matching(table, table.records, predicates + [Among(ids)]), DecisionKeys(decisions);
    forall i | 0 <= i < |records|
      ensures fks[i] == Keys(table, records)[i]
    {
      MatchingMembers(table, table.records, predicates + [Among(ids)], records[i]);
    }
    assert fks == Keys(table, records);
    StoredAreChildren(table, table.records, predicates + [Among(ids)], id);
    StoredAgain(table, table.records, predicates, ids, id);
    ChildrenArePicked(decisions, fks, id);
    ChildrenArePicked(records, fks, id);
  }

  lemma {:induction false} WithIdentityValid(fields: seq<Column>)
    requires InvalidField(DECISION_COLUMNS, fields).None?
    ensures InvalidField(DECISION_COLUMNS, WithKey(fields, FieldIdentityID)).None?
  {
    assert DECISION_COLUMNS[1] == FieldIdentityID;
  }

  /** A load from a table succeeds, whatever decisions without a parent it stores,
      and serves every node by the predicates the query had before. */
  method LoadFromTable(query: DecisionQuery, ghost table: Table<DecisionRecord>, nodes: seq<AuthIdentity>)
    returns (err: Option<LoadError>)
    requires Backed(query, table) && InvalidField(DECISION_COLUMNS, query.Fields).None?
    modifies nodes`AdoptionDecisions, query`Fields, query`Predicates
    ensures err.None? && query.Predicates == old(query.Predicates) + [Among(IdentityIDs(nodes))]
    ensures AllServed(nodes, IdentityIDs(nodes), table, old(query.Predicates))
  {
    ghost var predicates, ids := query.Predicates, IdentityIDs(nodes);
    WithIdentityValid(query.Fields);
    ghost var decisions, stop;
    err, decisions, stop := LoadAdoptionDecisions(query, nodes);
    assert IdentityIDs(nodes) == ids;
    AllKnown(table, predicates, ids, decisions, stop);
    ServedFromTable(table, predicates, nodes, ids, decisions);
  }

  lemma {:induction false} ServedFromTable(table: Table<DecisionRecord>, predicates: seq<Predicate>,
                                           nodes: seq<AuthIdentity>, ids: seq<int>, decisions: seq<AdoptionDecision>)
    requires |nodes| == |ids| && forall record <- table.records :: table.key(record) == record.identityID
    requires DecisionsFrom(decisions, Matching(table, table.records, predicates + [Among(ids)]), true)
    requires DecisionsLoaded(nodes, ids, decisions, |decisions|)
    ensures AllServed(nodes, ids, table, predicates)
  {
    assert decisions[..|decisions|] == decisions && DecisionKeys(decisions)[..|decisions|] == DecisionKeys(decisions);
    forall i | 0 <= i < |nodes| {
      SelectedAreStored(table, predicates, ids, decisions, ids[i]);
    }
  }
}
