/** Eager loading of a many-to-many edge: `loadGroups` of the account query. */
module LoadM2M {
  import opened Prelude
  import opened RowCodec
  import opened QuerySpec
  import opened Entities
  import opened Loading

  /** A stored group, with a JSON document, and a row of the join of groups with
      the edge table. */
  datatype GroupRecord = GroupRecord(id: int, name: string, routing: seq<int>)
  datatype JoinRow = JoinRow(accountID: int, group: GroupRecord)

  const GROUP_COLUMNS: seq<Column> := [FieldID, FieldName, FieldModelRouting]

  /** The holder of a group column after scanning it. */
  function GroupCell(c: Column, g: GroupRecord): Cell {
    match c
    case FieldID => NullInt64(true, g.id)
    case FieldName => NullString(true, g.name)
    case FieldModelRouting => Bytes(g.routing)
    case _ => Unknown(Null)
  }

  function GroupCells(columns: seq<Column>, g: GroupRecord): (values: seq<Cell>)
    ensures |values| == |columns| && forall i :: 0 <= i < |columns| ==> values[i] == GroupCell(columns[i], g)
  {
    seq(|columns|, i requires 0 <= i < |columns| => GroupCell(columns[i], g))
  }

  /** The fields of a group node. */
  datatype GroupFields = GroupFields(ID: int, Name: string, ModelRouting: Json)

  /** What `assignValues` of a group leaves in a fresh node, or its first error. */
  function AssignGroup(js: JsonCodec, columns: seq<Column>, values: seq<Cell>): Result<GroupFields, AssignError>
    requires |columns| <= |values|
  {
    if columns == [] then Ok(GroupFields(0, "", NilMap))
    else
      var k := |columns| - 1;
      match AssignGroup(js, columns[..k], values)
      case Err(e) => Err(e)
      case Ok(g) => AssignGroupColumn(js, g, columns[k], values[k])
  }

  function AssignGroupColumn(js: JsonCodec, g: GroupFields, c: Column, cell: Cell): Result<GroupFields, AssignError> {
    match c
    case FieldID =>
      if !cell.NullInt64? then Err(TypeMismatch(c)) else Ok(g.(ID := cell.int64))
    case FieldName =>
      if !cell.NullString? then Err(TypeMismatch(c)) else if cell.valid then Ok(g.(Name := cell.str)) else Ok(g)
    case FieldModelRouting =>
      if !cell.Bytes? then Err(TypeMismatch(c))
      else if |cell.raw| == 0 then Ok(g)
      else
        (match js.unmarshal(cell.raw, g.ModelRouting)
         case None => Err(Unmarshal(c))
         case Some(m) => Ok(g.(ModelRouting := m)))
    case _ => Ok(g)
  }

  function DecodeGroup(js: JsonCodec, columns: seq<Column>, g: GroupRecord): Result<GroupFields, AssignError> {
    AssignGroup(js, columns, GroupCells(columns, g))
  }

  /** The stored bytes are empty or encode this document. */
  ghost predicate Encodes(js: JsonCodec, routing: seq<int>, doc: Json) {
    if routing == [] then doc == NilMap else routing == js.marshal(doc) && RoundTrips(js, doc)
  }

  /** What is read of a stored group: the fields whose columns are selected. */
  function GroupRead(columns: seq<Column>, g: GroupRecord, doc: Json): GroupFields {
    GroupFields(if FieldID in columns then g.id else 0, if FieldName in columns then g.name else "",
                if FieldModelRouting in columns then doc else NilMap)
  }

  lemma {:induction false} GroupColumnRead(js: JsonCodec, columns: seq<Column>, c: Column, g: GroupRecord, doc: Json)
    requires Encodes(js, g.routing, doc)
    ensures AssignGroupColumn(js, GroupRead(columns, g, doc), c, GroupCell(c, g)) ==
            Ok(GroupRead(columns + [c], g, doc))
  {
  }

  /** A stored group is read back as far as it is selected, whatever the order and
      number of the columns. */
  lemma {:induction false} DecodedGroup(js: JsonCodec, columns: seq<Column>, values: seq<Cell>, g: GroupRecord,
                                        doc: Json)
    requires Encodes(js, g.routing, doc) && |columns| <= |values|
    requires forall i :: 0 <= i < |columns| ==> values[i] == GroupCell(columns[i], g)
    ensures AssignGroup(js, columns, values) == Ok(GroupRead(columns, g, doc))
  {
    if columns != [] {
      var k := |columns| - 1;
      assert columns == columns[..k] + [columns[k]];
      DecodedGroup(js, columns[..k], values, g, doc);
      GroupColumnRead(js, columns[..k], columns[k], g, doc);
    }
  }

  /** The group query as the loader uses it. `join` is what the database returns
      for its predicates, each restriction joining the edge table once more. */
  class GroupQuery {
    var Fields: seq<Column>
    var Predicates: seq<Predicate>
    const js: JsonCodec
    const join: seq<Predicate> -> Result<seq<JoinRow>, LoadError>

    constructor (fields: seq<Column>, js: JsonCodec, join: seq<Predicate> -> Result<seq<JoinRow>, LoadError>)
      ensures Fields == fields && Predicates == [] && this.js == js && this.join == join
    {
      Fields, Predicates := fields, [];
      this.js, this.join := js, join;
    }
  }

  /** How often the edge table was joined. */
  function Joins(predicates: seq<Predicate>): nat {
    if predicates == [] then 0
    else Joins(predicates[..|predicates|-1]) + if predicates[|predicates|-1].Among? then 1 else 0
  }

  /** The predicates of the query once the loader appended its restriction. */
  function Restricted(predicates: seq<Predicate>, ids: seq<int>): (r: seq<Predicate>)
    ensures r == predicates + [Among(ids)] && Joins(r) == Joins(predicates) + 1
  {
    var r := predicates + [Among(ids)];
    assert r[..|predicates|] == predicates;
    r
  }

  /** A query nobody loaded through yet did not join the edge table. */
  lemma {:induction false} FiltersDoNotJoin(predicates: seq<Predicate>)
    requires forall p <- predicates :: p.Filter?
    ensures Joins(predicates) == 0
  {
    if predicates != [] {
      assert predicates[|predicates|-1] in predicates;
      FiltersDoNotJoin(predicates[..|predicates|-1]);
    }
  }

  /** The columns of the joined query after its first: every join put one more
      account column in front of what was selected before. */
  function JoinedColumns(joins: nat, fields: seq<Column>): (columns: seq<Column>)
    requires joins > 0
    ensures columns != []
    ensures joins > 1 ==> columns[0] == FieldAccountID
    ensures joins == 1 ==> columns == ColumnsOf(GROUP_COLUMNS, true, fields, [])
  {
    seq(joins - 1, i => FieldAccountID) + ColumnsOf(GROUP_COLUMNS, true, fields, [])
  }

  // ------------------------------------------------------------------------
  // Specification
  // ------------------------------------------------------------------------

  function GroupIDs(rows: seq<JoinRow>): (r: seq<int>)
    ensures |r| == |rows| && forall i :: 0 <= i < |rows| ==> r[i] == rows[i].group.id
  {
    seq(|rows|, i requires 0 <= i < |rows| => rows[i].group.id)
  }

  /** Account `a` and group `g` are joined by some row. */
  ghost predicate Paired(rows: seq<JoinRow>, a: int, g: int) {
    exists row <- rows :: row.accountID == a && row.group.id == g
  }

  /** The naive join: for one account, try every group the result mentions. */
  ghost function NaiveJoin(groups: seq<int>, rows: seq<JoinRow>, a: int): seq<int> {
    if groups == [] then []
    else
      NaiveJoin(groups[..|groups|-1], rows, a) +
      if Paired(rows, a, groups[|groups|-1]) then [groups[|groups|-1]] else []
  }

  /** The IDs of the groups account `a` must end up with. */
  ghost function GroupsOf(rows: seq<JoinRow>, a: int): seq<int> {
    NaiveJoin(FirstOccurrences(GroupIDs(rows)), rows, a)
  }

  function GroupIDList(groups: seq<Group>): (r: seq<int>)
    ensures |r| == |groups| && forall i :: 0 <= i < |groups| ==> r[i] == groups[i].ID
  {
    seq(|groups|, i requires 0 <= i < |groups| => groups[i].ID)
  }

  lemma {:induction false} NaiveJoinMeaning(groups: seq<int>, rows: seq<JoinRow>, a: int)
    requires NoDup(groups)
    ensures forall g :: g in NaiveJoin(groups, rows, a) <==> g in groups && Paired(rows, a, g)
    ensures NoDup(NaiveJoin(groups, rows, a))
    ensures forall i, j :: 0 <= i < j < |NaiveJoin(groups, rows, a)| ==>
              FirstIndex(groups, NaiveJoin(groups, rows, a)[i]) < FirstIndex(groups, NaiveJoin(groups, rows, a)[j])
  {
    if groups != [] {
      var p, g := groups[..|groups|-1], groups[|groups|-1];
      assert groups == p + [g];
      NaiveJoinMeaning(p, rows, a);
      var q, r := NaiveJoin(p, rows, a), NaiveJoin(groups, rows, a);
      forall i, j | 0 <= i < j < |r|
        ensures FirstIndex(groups, r[i]) < FirstIndex(groups, r[j])
        ensures r[i] != r[j]
      {
        assert r[i] == q[i] && q[i] in q && q[i] in p;
        FirstIndexOfPrefix(p, [g], q[i]);
        if j < |q| {
          assert r[j] == q[j] && q[j] in q && q[j] in p;
          FirstIndexOfPrefix(p, [g], q[j]);
        } else {
          assert r[j] == g && g !in p;
          assert FirstIndex(groups, g) >= |p|;
        }
      }
    }
  }

  // ------------------------------------------------------------------------
  // The loader
  // ------------------------------------------------------------------------

  function IndexOf(byID: map<int, Account>, id: int): Account? {
    if id in byID then byID[id] else null
  }

  /** The nodes the index `nids` holds for group `g` once `rows` were read. */
  function Linked(byID: map<int, Account>, rows: seq<JoinRow>, g: int): set<Account?> {
    if rows == [] then {}
    else
      var row := rows[|rows|-1];
      Linked(byID, rows[..|rows|-1], g) + if row.group.id == g then {IndexOf(byID, row.accountID)} else {}
  }

  /** The neighbours node `x` receives when the index is fanned out. */
  function Attached(neighbors: seq<Group>, nids: map<int, set<Account?>>, x: Account): seq<Group> {
    if neighbors == [] then []
    else
      var n := neighbors[|neighbors|-1];
      Attached(neighbors[..|neighbors|-1], nids, x) + if n.ID in nids && x in nids[n.ID] then [n] else []
  }

  /** Where fanning out stops, if it does. */
  function FanOutError(neighbors: seq<Group>, nids: map<int, set<Account?>>): Option<LoadError> {
    if neighbors == [] then None
    else if neighbors[0].ID !in nids then Some(UnexpectedNode(neighbors[0].ID))
    else if null in nids[neighbors[0].ID] then Some(NilDereference)
    else FanOutError(neighbors[1..], nids)
  }

  /** The ID a group node is given is the one the loader keys its index by,
      because the column list starts with the ID and names it only once. */
  lemma {:induction false} SecondValueIsID(js: JsonCodec, columns: seq<Column>, g: GroupRecord)
    requires columns != [] && columns[0] == FieldID
    requires DecodeGroup(js, columns, g).Ok?
    ensures DecodeGroup(js, columns, g).value.ID == GroupCells(columns, g)[0].int64 == g.id
  {
    assert columns[..|columns|] == columns;
    AssignGroupPrefix(js, columns, GroupCells(columns, g), g, |columns|);
  }

  lemma {:induction false} AssignGroupPrefix(
      js: JsonCodec, columns: seq<Column>, values: seq<Cell>, g: GroupRecord, k: nat)
    requires k <= |columns| == |values| && values == GroupCells(columns, g)
    requires AssignGroup(js, columns[..k], values).Ok?
    ensures AssignGroup(js, columns[..k], values).value.ID == if FieldID in columns[..k] then g.id else 0
  {
    if k > 0 {
      assert columns[..k][..k-1] == columns[..k-1];
      assert columns[..k] == columns[..k-1] + [columns[k-1]];
      AssignGroupPrefix(js, columns, values, g, k - 1);
    }
  }

  /** The error of one row after some groups were seen: a second value that is not
      a group's ID, or a new group that does not decode. Further rows of a group are
      not decoded. */
  function RowError(js: JsonCodec, columns: seq<Column>, seen: seq<int>, g: GroupRecord): Option<LoadError>
    requires columns != []
  {
    if !GroupCell(columns[0], g).NullInt64? then Some(FailedAssertion)
    else if g.id in seen then None
    else AssignError(js, columns, g)
  }

  /** The error of the child query's own `Assign`. */
  function AssignError(js: JsonCodec, columns: seq<Column>, g: GroupRecord): Option<LoadError> {
    match DecodeGroup(js, columns, g)
    case Err(e) => Some(ScanError(e))
    case Ok(_) => None
  }

  /** The error reading the join stops with. */
  function JoinError(js: JsonCodec, columns: seq<Column>, rows: seq<JoinRow>): Option<LoadError>
    requires columns != []
  {
    if rows == [] then None
    else
      var p := rows[..|rows|-1];
      OrElse(JoinError(js, columns, p), RowError(js, columns, GroupIDs(p), rows[|rows|-1].group))
  }

  lemma {:induction false} JoinErrorStep(js: JsonCodec, columns: seq<Column>, rows: seq<JoinRow>, k: nat)
    requires columns != [] && k < |rows|
    ensures JoinError(js, columns, rows[..k+1]) ==
            OrElse(JoinError(js, columns, rows[..k]), RowError(js, columns, GroupIDs(rows[..k]), rows[k].group))
  {
    assert rows[..k+1][..k] == rows[..k];
  }

  lemma {:induction false} JoinErrorStops(js: JsonCodec, columns: seq<Column>, rows: seq<JoinRow>, k: nat)
    requires columns != [] && k <= |rows| && JoinError(js, columns, rows[..k]).Some?
    ensures JoinError(js, columns, rows) == JoinError(js, columns, rows[..k])
    decreases |rows| - k
  {
    if k < |rows| {
      assert rows[..k+1][..k] == rows[..k];
      JoinErrorStops(js, columns, rows, k + 1);
    } else {
      assert rows[..k] == rows;
    }
  }

  /** `nids` indexes, for every group the rows mention, the nodes linked to it. */
  ghost predicate IndexesLinks(nids: map<int, set<Account?>>, byID: map<int, Account>, rows: seq<JoinRow>) {
    forall g :: (g in nids <==> g in GroupIDs(rows)) && (g in nids ==> nids[g] == Linked(byID, rows, g))
  }

  lemma {:induction false} NotLinked(byID: map<int, Account>, rows: seq<JoinRow>, g: int)
    requires g !in GroupIDs(rows)
    ensures Linked(byID, rows, g) == {}
  {
    if rows != [] {
      assert rows[|rows|-1].group.id == GroupIDs(rows)[|rows|-1];
      assert GroupIDs(rows[..|rows|-1]) == GroupIDs(rows)[..|rows|-1];
      NotLinked(byID, rows[..|rows|-1], g);
    }
  }

  /** The index after adding a node to the entry of group `g`. */
  function Link(nids: map<int, set<Account?>>, g: int, x: Account?): map<int, set<Account?>> {
    nids[g := (if g in nids then nids[g] else {}) + {x}]
  }

  lemma {:induction false} LinksStep(nids: map<int, set<Account?>>, byID: map<int, Account>, rows: seq<JoinRow>,
                                     row: JoinRow)
    requires IndexesLinks(nids, byID, rows)
    ensures IndexesLinks(Link(nids, row.group.id, IndexOf(byID, row.accountID)), byID, rows + [row])
  {
    var all := rows + [row];
    assert all[..|rows|] == rows;
    assert GroupIDs(all) == GroupIDs(rows) + [row.group.id];
    if row.group.id !in nids {
      NotLinked(byID, rows, row.group.id);
    }
    forall g
      ensures Linked(byID, all, g) ==
              Linked(byID, rows, g) + if row.group.id == g then {IndexOf(byID, row.accountID)} else {}
    {
    }
  }

  function FieldsOf(n: Group): GroupFields {
    GroupFields(n.ID, n.Name, n.ModelRouting)
  }

  /** The node is decoded from the first row of its group. */
  ghost predicate FromFirstRow(n: Group, js: JsonCodec, columns: seq<Column>, rows: seq<JoinRow>) {
    var first := FirstIndex(GroupIDs(rows), n.ID);
    first < |rows| && DecodeGroup(js, columns, rows[first].group) == Ok(FieldsOf(n))
  }

  /** The neighbours are the groups of the rows, each once, in first-appearance
      order, decoded from the columns. */
  ghost predicate NeighborsOf(neighbors: seq<Group>, js: JsonCodec, columns: seq<Column>, rows: seq<JoinRow>) {
    GroupIDList(neighbors) == FirstOccurrences(GroupIDs(rows)) &&
    forall n <- neighbors :: FromFirstRow(n, js, columns, rows)
  }

  lemma {:induction false} NeighborIDsStep(neighbors: seq<Group>, rows: seq<JoinRow>, row: JoinRow, more: seq<Group>)
    requires GroupIDList(neighbors) == FirstOccurrences(GroupIDs(rows))
    requires if row.group.id in GroupIDs(rows) then more == [] else |more| == 1 && more[0].ID == row.group.id
    ensures GroupIDList(neighbors + more) == FirstOccurrences(GroupIDs(rows + [row]))
  {
    assert GroupIDs(rows + [row]) == GroupIDs(rows) + [row.group.id];
    FirstOccurrencesExtended(GroupIDs(rows), row.group.id);
    assert GroupIDList(neighbors + more) == GroupIDList(neighbors) + GroupIDList(more);
    assert GroupIDList(more) == if row.group.id in GroupIDs(rows) then [] else [row.group.id];
  }

  lemma {:induction false} NeighborsStep(neighbors: seq<Group>, js: JsonCodec, columns: seq<Column>,
                                         rows: seq<JoinRow>, row: JoinRow, more: seq<Group>)
    requires NeighborsOf(neighbors, js, columns, rows)
    requires if row.group.id in GroupIDs(rows) then more == []
             else |more| == 1 && more[0].ID == row.group.id &&
                  DecodeGroup(js, columns, row.group) == Ok(FieldsOf(more[0]))
    ensures NeighborsOf(neighbors + more, js, columns, rows + [row])
  {
    NeighborIDsStep(neighbors, rows, row, more);
    forall n <- neighbors + more
      ensures FromFirstRow(n, js, columns, rows + [row])
    {
      if n in neighbors {
        FirstRowStays(n, js, columns, rows, row);
      } else {
        NewFirstRow(rows, row);
      }
    }
  }

  lemma {:induction false} FirstRowStays(n: Group, js: JsonCodec, columns: seq<Column>, rows: seq<JoinRow>,
                                         row: JoinRow)
    requires FromFirstRow(n, js, columns, rows)
    ensures FromFirstRow(n, js, columns, rows + [row])
  {
    var ids := GroupIDs(rows);
    assert ids[FirstIndex(ids, n.ID)] == n.ID;
    FirstIndexOfPrefix(ids, [row.group.id], n.ID);
    assert GroupIDs(rows + [row]) == ids + [row.group.id];
  }

  lemma {:induction false} NewFirstRow(rows: seq<JoinRow>, row: JoinRow)
    requires row.group.id !in GroupIDs(rows)
    ensures FirstIndex(GroupIDs(rows + [row]), row.group.id) == |rows|
  {
    var ids := GroupIDs(rows + [row]);
    assert ids == GroupIDs(rows) + [row.group.id];
    assert ids[|rows|] == row.group.id;
  }

  /** What reading some rows of the join has built. */
  ghost predicate Joined(neighbors: seq<Group>, nids: map<int, set<Account?>>, js: JsonCodec, columns: seq<Column>,
                         rows: seq<JoinRow>, byID: map<int, Account>)
  {
    NeighborsOf(neighbors, js, columns, rows) && IndexesLinks(nids, byID, rows)
  }

  /** The child query with its `ScanValues` and `Assign` replaced: one more
      leading column carries the account ID, a group seen before is only linked,
      and only a new one becomes a node. */
  method QueryJoined(js: JsonCodec, columns: seq<Column>, rows: seq<JoinRow>, byID: map<int, Account>)
    returns (err: Option<LoadError>, neighbors: seq<Group>, nids: map<int, set<Account?>>)
    requires columns != []
    ensures err == JoinError(js, columns, rows)
    ensures err.None? ==> Joined(neighbors, nids, js, columns, rows, byID)
    ensures forall n <- neighbors :: fresh(n)
  {
    neighbors, nids := [], map[];
    for k := 0 to |rows|
      invariant JoinError(js, columns, rows[..k]).None?
      invariant Joined(neighbors, nids, js, columns, rows[..k], byID)
      invariant forall n <- neighbors :: fresh(n)
    {
      assert rows[..k+1] == rows[..k] + [rows[k]];
      JoinErrorStep(js, columns, rows, k);
      var more;
      err, more, nids := AssignJoined(js, columns, rows[k], byID, nids, rows[..k], neighbors);
      if err.Some? {
        JoinErrorStops(js, columns, rows, k + 1);
        return;
      }
      neighbors := neighbors + more;
    }
    assert rows[..|rows|] == rows;
    err := None;
  }

  /** The replaced `Assign`: the nodes to append for a row and the new index. `seen`
      are the rows before it and `neighbors` the nodes they made. */
  method AssignJoined(js: JsonCodec, columns: seq<Column>, row: JoinRow, byID: map<int, Account>,
                      before: map<int, set<Account?>>,
                      ghost seen: seq<JoinRow>, ghost neighbors: seq<Group>)
    returns (err: Option<LoadError>, more: seq<Group>, nids: map<int, set<Account?>>)
    requires columns != [] && Joined(neighbors, before, js, columns, seen, byID)
    ensures err == RowError(js, columns, GroupIDs(seen), row.group)
    ensures err.None? ==> Joined(neighbors + more, nids, js, columns, seen + [row], byID)
    ensures forall n <- more :: fresh(n)
  {
    var values := [NullInt64(true, row.accountID)] + GroupCells(columns, row.group);
    err, more, nids := LinkOrAssign(js, columns, row, values, byID, before);
    if err.None? {
      NeighborsStep(neighbors, js, columns, seen, row, more);
      LinksStep(before, byID, seen, row);
    }
  }

  method LinkOrAssign(js: JsonCodec, columns: seq<Column>, ghost row: JoinRow, values: seq<Cell>,
                      byID: map<int, Account>,
                      before: map<int, set<Account?>>)
    returns (err: Option<LoadError>, more: seq<Group>, nids: map<int, set<Account?>>)
    requires columns != [] && values == [NullInt64(true, row.accountID)] + GroupCells(columns, row.group)
    ensures err == if !GroupCell(columns[0], row.group).NullInt64? then Some(FailedAssertion)
                   else if row.group.id in before then None else AssignError(js, columns, row.group)
    ensures err.None? ==> nids == Link(before, row.group.id, IndexOf(byID, row.accountID))
    ensures err.None? ==>
              if row.group.id in before then more == []
              else |more| == 1 && more[0].ID == row.group.id &&
                   DecodeGroup(js, columns, row.group) == Ok(FieldsOf(more[0]))
    ensures forall n <- more :: fresh(n)
  {
    nids, more, err := before, [], None;
    assert values[1] == GroupCells(columns, row.group)[0] && values[1..] == GroupCells(columns, row.group);
    if !values[1].NullInt64? {
      err := Some(FailedAssertion);
      return;
    }
    var outValue, inValue := values[0].int64, values[1].int64;
    assert columns[0] == FieldID && inValue == row.group.id;
    if inValue !in nids {
      assert {} + {IndexOf(byID, outValue)} == {IndexOf(byID, outValue)};
      nids := nids[inValue := {IndexOf(byID, outValue)}];
      err, more := AssignNew(js, columns, row, values[1..]);
    } else {
      nids := nids[inValue := nids[inValue] + {IndexOf(byID, outValue)}];
    }
  }

  /** The original `Assign` of the child query. */
  method AssignNew(js: JsonCodec, columns: seq<Column>, ghost row: JoinRow, values: seq<Cell>)
    returns (err: Option<LoadError>, more: seq<Group>)
    requires columns != [] && columns[0] == FieldID && values == GroupCells(columns, row.group)
    ensures match DecodeGroup(js, columns, row.group)
            case Err(e) => err == Some(ScanError(e)) && more == []
            case Ok(g) => err.None? && |more| == 1 && FieldsOf(more[0]) == g && g.ID == row.group.id && fresh(more[0])
  {
    var g := AssignGroup(js, columns, values);
    if g.Err? {
      return Some(ScanError(g.error)), [];
    }
    SecondValueIsID(js, columns, row.group);
    var node := new Group(g.value.ID, g.value.Name, g.value.ModelRouting);
    return None, [node];
  }

  lemma {:induction false} FanOutErrorAt(neighbors: seq<Group>, nids: map<int, set<Account?>>, k: nat)
    requires k < |neighbors|
    requires forall i :: 0 <= i < k ==> neighbors[i].ID in nids && null !in nids[neighbors[i].ID]
    requires neighbors[k].ID !in nids || null in nids[neighbors[k].ID]
    ensures FanOutError(neighbors, nids) ==
            Some(if neighbors[k].ID !in nids then UnexpectedNode(neighbors[k].ID) else NilDereference)
  {
    if k > 0 {
      FanOutErrorAt(neighbors[1..], nids, k - 1);
    }
  }

  lemma {:induction false} FanOutErrorNone(neighbors: seq<Group>, nids: map<int, set<Account?>>)
    requires forall n <- neighbors :: n.ID in nids && null !in nids[n.ID]
    ensures FanOutError(neighbors, nids) == None
  {
    if neighbors != [] {
      FanOutErrorNone(neighbors[1..], nids);
    }
  }

  /** Appends every neighbour to the nodes its index entry holds, visiting those
      in any order. */
  method FanOut(neighbors: seq<Group>, nids: map<int, set<Account?>>, ghost targets: set<Account>)
    returns (err: Option<LoadError>)
    requires forall g <- nids, x: Account? <- nids[g] :: x == null || x in targets
    modifies targets`Groups
    ensures err == FanOutError(neighbors, nids)
    ensures err.None? ==> forall x <- targets :: x.Groups == old(x.Groups) + Attached(neighbors, nids, x)
  {
    for k := 0 to |neighbors|
      invariant forall i :: 0 <= i < k ==> neighbors[i].ID in nids && null !in nids[neighbors[i].ID]
      invariant forall x <- targets :: x.Groups == old(x.Groups) + Attached(neighbors[..k], nids, x)
    {
      assert neighbors[..k+1][..k] == neighbors[..k];
      var n := neighbors[k];
      if n.ID !in nids {
        FanOutErrorAt(neighbors, nids, k);
        return Some(UnexpectedNode(n.ID));
      }
      var todo := nids[n.ID];
      while todo != {}
        invariant todo <= nids[n.ID]
        invariant null in nids[n.ID] ==> null in todo
        invariant forall x <- targets ::
                    x.Groups == old(x.Groups) + Attached(neighbors[..k], nids, x) +
                                if x in nids[n.ID] - todo then [n] else []
        decreases todo
      {
        var kn :| kn in todo;
        if kn == null {
          FanOutErrorAt(neighbors, nids, k);
          return Some(NilDereference);
        }
        kn.Groups := kn.Groups + [n];
        todo := todo - {kn};
      }
    }
    assert neighbors[..|neighbors|] == neighbors;
    FanOutErrorNone(neighbors, nids);
    return None;
  }

  lemma {:induction false} LinkedMeaning(nodes: seq<Account>, ids: seq<int>, byID: map<int, Account>,
                                         rows: seq<JoinRow>, g: int)
    requires |nodes| == |ids| && IndexedByID(byID, nodes, ids)
    requires forall i :: 0 <= i < |nodes| ==> ids[i] == nodes[i].ID
    ensures null in Linked(byID, rows, g) <==> exists row <- rows :: row.group.id == g && row.accountID !in ids
    ensures forall x <- nodes ::
              x in Linked(byID, rows, g) <==> Owner(nodes, ids, x.ID) == Some(x) && Paired(rows, x.ID, g)
  {
    if rows != [] {
      var p, row := rows[..|rows|-1], rows[|rows|-1];
      assert rows == p + [row];
      LinkedMeaning(nodes, ids, byID, p, g);
      OwnerHasID(nodes, ids, row.accountID);
      assert IndexOf(byID, row.accountID) ==
             match Owner(nodes, ids, row.accountID) case None => null case Some(n) => n;
      forall x <- nodes
        ensures Paired(rows, x.ID, g) <==> Paired(p, x.ID, g) || (row.accountID == x.ID && row.group.id == g)
      {
      }
    }
  }

  /** What fanning out gives a node is what the naive join gives its ID, provided
      the node is the one the index kept for that ID. */
  lemma {:induction false} AttachedIsNaiveJoin(
      nodes: seq<Account>, ids: seq<int>, byID: map<int, Account>, rows: seq<JoinRow>,
      nids: map<int, set<Account?>>, neighbors: seq<Group>, x: Account)
    requires |nodes| == |ids| && IndexedByID(byID, nodes, ids) && x in nodes
    requires forall i :: 0 <= i < |nodes| ==> ids[i] == nodes[i].ID
    requires IndexesLinks(nids, byID, rows)
    requires forall n <- neighbors :: n.ID in GroupIDs(rows)
    ensures GroupIDList(Attached(neighbors, nids, x)) ==
            if Owner(nodes, ids, x.ID) == Some(x) then NaiveJoin(GroupIDList(neighbors), rows, x.ID) else []
  {
    if neighbors != [] {
      var p, n := neighbors[..|neighbors|-1], neighbors[|neighbors|-1];
      AttachedIsNaiveJoin(nodes, ids, byID, rows, nids, p, x);
      assert n in neighbors;
      LinkedMeaning(nodes, ids, byID, rows, n.ID);
      AttachedStep(neighbors, nids, x);
      assert GroupIDList(neighbors)[..|neighbors|-1] == GroupIDList(p);
    }
  }

  lemma {:induction false} AttachedStep(neighbors: seq<Group>, nids: map<int, set<Account?>>, x: Account)
    requires neighbors != []
    ensures var n := neighbors[|neighbors|-1];
            GroupIDList(Attached(neighbors, nids, x)) ==
            GroupIDList(Attached(neighbors[..|neighbors|-1], nids, x)) +
            if n.ID in nids && x in nids[n.ID] then [n.ID] else []
  {
  }

  /** Fanning out the index of a join panics exactly when some row names an
      account that was not asked for. */
  lemma {:induction false} FanOutOfJoin(
      nodes: seq<Account>, ids: seq<int>, byID: map<int, Account>, rows: seq<JoinRow>,
      nids: map<int, set<Account?>>, neighbors: seq<Group>)
    requires |nodes| == |ids| && IndexedByID(byID, nodes, ids)
    requires forall i :: 0 <= i < |nodes| ==> ids[i] == nodes[i].ID
    requires IndexesLinks(nids, byID, rows) && GroupIDList(neighbors) == FirstOccurrences(GroupIDs(rows))
    ensures FanOutError(neighbors, nids) ==
            if forall row <- rows :: row.accountID in ids then None else Some(NilDereference)
  {
    forall i | 0 <= i < |neighbors|
      ensures neighbors[i].ID in GroupIDs(rows)
      ensures null in nids[neighbors[i].ID] <==>
              exists row <- rows :: row.group.id == neighbors[i].ID && row.accountID !in ids
    {
      assert neighbors[i].ID == GroupIDList(neighbors)[i];
      LinkedMeaning(nodes, ids, byID, rows, neighbors[i].ID);
    }
    if row :| row in rows && row.accountID !in ids {
      var j :| 0 <= j < |rows| && rows[j] == row;
      assert GroupIDs(rows)[j] == row.group.id;
      assert row.group.id in FirstOccurrences(GroupIDs(rows));
      var i :| 0 <= i < |neighbors| && GroupIDList(neighbors)[i] == row.group.id;
      FirstBadNeighbor(neighbors, nids, i);
    } else {
      FanOutErrorNone(neighbors, nids);
    }
  }

  lemma {:induction false} FirstBadNeighbor(neighbors: seq<Group>, nids: map<int, set<Account?>>, i: nat)
    requires i < |neighbors|
    requires forall n <- neighbors :: n.ID in nids
    requires null in nids[neighbors[i].ID]
    ensures FanOutError(neighbors, nids) == Some(NilDereference)
  {
    if i > 0 {
      FirstBadNeighbor(neighbors[1..], nids, i - 1);
    }
  }

  /** What reading the join through these predicates, the loader's own restriction
      included, stops with. */
  function ReadError(query: GroupQuery, predicates: seq<Predicate>, fields: seq<Column>): Option<LoadError>
    requires Joins(predicates) > 0
  {
    match InvalidField(GROUP_COLUMNS, fields)
    case Some(f) => Some(ValidationError(f))
    case None =>
      match query.join(predicates)
      case Err(e) => Some(e)
      case Ok(rows) => JoinError(query.js, JoinedColumns(Joins(predicates), fields), rows)
  }

  /** The error of attaching what was read. */
  function AttachError(rows: seq<JoinRow>, ids: seq<int>): Option<LoadError> {
    if forall row <- rows :: row.accountID in ids then None else Some(NilDereference)
  }

  /** The outcome of loading groups into nodes with these IDs. */
  function LoadGroupsError(query: GroupQuery, predicates: seq<Predicate>, fields: seq<Column>, ids: seq<int>)
    : Option<LoadError>
    requires Joins(predicates) > 0
  {
    var e := ReadError(query, predicates, fields);
    if e.Some? || query.join(predicates).Err? then e else AttachError(query.join(predicates).value, ids)
  }

  /** A query that was already loaded through once joins the edge table twice. Then
      the second value is an account ID nobody knows how to scan, so the load
      panics on its first row and succeeds if and only if there is none. */
  lemma {:induction false} ReusedQueryPanics(
      query: GroupQuery, predicates: seq<Predicate>, fields: seq<Column>, ids: seq<int>)
    requires Joins(predicates) > 1 && InvalidField(GROUP_COLUMNS, fields).None? && query.join(predicates).Ok?
    ensures LoadGroupsError(query, predicates, fields, ids) ==
            if query.join(predicates).value == [] then None else Some(FailedAssertion)
  {
    var rows, columns := query.join(predicates).value, JoinedColumns(Joins(predicates), fields);
    if rows != [] {
      assert rows[..1][..0] == [];
      assert JoinError(query.js, columns, rows[..0]).None?;
      JoinErrorStops(query.js, columns, rows, 1);
    }
  }

  /** Row `k` is the first of its group. */
  predicate IsFirstRow(rows: seq<JoinRow>, k: nat)
    requires k < |rows|
  {
    forall j :: 0 <= j < k ==> rows[j].group.id != rows[k].group.id
  }

  lemma {:induction false} NoErrorSoFar(js: JsonCodec, columns: seq<Column>, rows: seq<JoinRow>, k: nat)
    requires columns != [] && columns[0] == FieldID && k <= |rows|
    requires forall j :: 0 <= j < k && IsFirstRow(rows, j) ==> DecodeGroup(js, columns, rows[j].group).Ok?
    ensures JoinError(js, columns, rows[..k]).None?
  {
    if k > 0 {
      NoErrorSoFar(js, columns, rows, k - 1);
      JoinErrorStep(js, columns, rows, k - 1);
      if !IsFirstRow(rows, k - 1) {
        var j :| 0 <= j < k - 1 && rows[j].group.id == rows[k-1].group.id;
        assert GroupIDs(rows[..k-1])[j] == rows[k-1].group.id;
      }
    }
  }

  /** How a first load through a query ends: on an invalid field or with the query's
      error; else with the scan error of the first group that does not decode, which
      only the first row of a group tells; else with a panic if some row is of an
      account not asked for. `k` is the first row of the first group that does not
      decode, or counts the rows. */
  lemma {:induction false} LoadErrorIsExact(query: GroupQuery, predicates: seq<Predicate>, fields: seq<Column>,
                                            ids: seq<int>, k: nat)
    requires Joins(predicates) == 1
    requires InvalidField(GROUP_COLUMNS, fields).None? && query.join(predicates).Ok? ==>
               var columns, rows := ColumnsOf(GROUP_COLUMNS, true, fields, []), query.join(predicates).value;
               && k <= |rows|
               && (forall j :: 0 <= j < k && IsFirstRow(rows, j) ==> DecodeGroup(query.js, columns, rows[j].group).Ok?)
               && (k < |rows| ==> IsFirstRow(rows, k) && DecodeGroup(query.js, columns, rows[k].group).Err?)
    ensures LoadGroupsError(query, predicates, fields, ids) ==
            if InvalidField(GROUP_COLUMNS, fields).Some?
            then Some(ValidationError(InvalidField(GROUP_COLUMNS, fields).value))
            else if query.join(predicates).Err? then Some(query.join(predicates).error)
            else
              var columns, rows := ColumnsOf(GROUP_COLUMNS, true, fields, []), query.join(predicates).value;
              if k < |rows| then Some(ScanError(DecodeGroup(query.js, columns, rows[k].group).error))
              else if forall row <- rows :: row.accountID in ids then None
              else Some(NilDereference)
  {
    if InvalidField(GROUP_COLUMNS, fields).None? && query.join(predicates).Ok? {
      var columns, rows := ColumnsOf(GROUP_COLUMNS, true, fields, []), query.join(predicates).value;
      StartsWithID(fields);
      NoErrorSoFar(query.js, columns, rows, k);
      if k < |rows| {
        JoinErrorStep(query.js, columns, rows, k);
        JoinErrorStops(query.js, columns, rows, k + 1);
      } else {
        assert rows[..k] == rows;
      }
    }
  }

  lemma {:induction false} StartsWithID(fields: seq<Column>)
    ensures var columns := ColumnsOf(GROUP_COLUMNS, true, fields, []);
            columns != [] && columns[0] == FieldID
  {
    if fields != [] {
      ProjectionKeepsKeys(GROUP_COLUMNS, true, fields, []);
    }
  }

  lemma {:induction false} LinkedNodes(nodes: seq<Account>, ids: seq<int>, byID: map<int, Account>,
                                       rows: seq<JoinRow>, g: int, x: Account?)
    requires |nodes| == |ids| && IndexedByID(byID, nodes, ids)
    requires x in Linked(byID, rows, g)
    ensures x == null || x in nodes
  {
    if rows != [] && x in Linked(byID, rows[..|rows|-1], g) {
      LinkedNodes(nodes, ids, byID, rows[..|rows|-1], g, x);
    } else {
      var a := rows[|rows|-1].accountID;
      assert x == IndexOf(byID, a) && (a in byID ==> Some(byID[a]) == Owner(nodes, ids, a));
    }
  }

  lemma {:induction false} AttachedAmong(neighbors: seq<Group>, nids: map<int, set<Account?>>, x: Account)
    ensures forall g <- Attached(neighbors, nids, x) :: g in neighbors
  {
    if neighbors != [] {
      AttachedAmong(neighbors[..|neighbors|-1], nids, x);
    }
  }

  /** Every node that owns its ID holds, as one shared object per group, exactly
      the groups of the naive join; a node shadowed by a later one with the same
      ID holds none. */
  ghost predicate GroupsLoaded(nodes: seq<Account>, ids: seq<int>, rows: seq<JoinRow>, neighbors: seq<Group>)
    requires |nodes| == |ids|
    reads nodes`Groups
  {
    forall i :: 0 <= i < |nodes| ==>
      (forall g <- nodes[i].Groups :: g in neighbors) &&
      GroupIDList(nodes[i].Groups) == if Owner(nodes, ids, ids[i]) == Some(nodes[i]) then GroupsOf(rows, ids[i]) else []
  }

  /** The first loop of the loader: the IDs to ask for, the index, empty lists. */
  method IndexAccounts(nodes: seq<Account>) returns (edgeIDs: seq<int>, byID: map<int, Account>)
    modifies nodes`Groups
    ensures edgeIDs == IDs(nodes)
    ensures IndexedByID(byID, nodes, edgeIDs)
    ensures forall x <- nodes :: x.Groups == []
  {
    ghost var ids := IDs(nodes);
    edgeIDs, byID := [], map[];
    for i := 0 to |nodes|
      invariant edgeIDs == ids[..i]
      invariant IndexedByID(byID, nodes[..i], ids[..i])
      invariant forall x <- nodes[..i] :: x.Groups == []
    {
      IndexStep(byID, nodes, ids, i);
      edgeIDs := edgeIDs + [nodes[i].ID];
      byID := byID[nodes[i].ID := nodes[i]];
      nodes[i].Groups := [];
    }
    assert nodes[..|nodes|] == nodes && ids[..|ids|] == ids;
  }

  /** `loadGroups`, as far as the query and the error go. */
  method LoadOnce(query: GroupQuery, nodes: seq<Account>) returns (err: Option<LoadError>)
    modifies nodes`Groups, query`Predicates
    ensures query.Predicates == old(query.Predicates) + [Among(IDs(nodes))] && Joins(query.Predicates) > 0
    ensures err == LoadGroupsError(query, query.Predicates, query.Fields, IDs(nodes))
  {
    ghost var neighbors;
    err, neighbors := LoadGroups(query, nodes);
  }

  /** Two loads through one query: the second asks for both lists of accounts and,
      if the query answers at all, succeeds if and only if the answer is empty. */
  method LoadTwice(query: GroupQuery, first: seq<Account>, second: seq<Account>)
    returns (firstErr: Option<LoadError>, secondErr: Option<LoadError>)
    modifies first`Groups, second`Groups, query`Predicates
    ensures var once := old(query.Predicates) + [Among(IDs(first))];
            && Joins(once) > 0 && firstErr == LoadGroupsError(query, once, query.Fields, IDs(first))
            && query.Predicates == once + [Among(IDs(second))]
    ensures InvalidField(GROUP_COLUMNS, query.Fields).None? && query.join(query.Predicates).Ok? ==>
              secondErr == if query.join(query.Predicates).value == [] then None else Some(FailedAssertion)
  {
    ghost var ids := IDs(second);
    firstErr := LoadOnce(query, first);
    assert IDs(second) == ids;
    secondErr := LoadOnce(query, second);
    if InvalidField(GROUP_COLUMNS, query.Fields).None? && query.join(query.Predicates).Ok? {
      ReusedQueryPanics(query, query.Predicates, query.Fields, IDs(second));
    }
  }

  /** An account with one group, loaded twice through a query that always answers with it. */
  method LoadOneTwice(query: GroupQuery, account: Account, ghost row: JoinRow)
    returns (first: Option<LoadError>, second: Option<LoadError>)
    requires query.Fields == [] && query.Predicates == [] && (forall ps :: query.join(ps) == Ok([row]))
    requires account.ID == row.accountID && row.group.routing == []
    modifies account`Groups, query`Predicates
    ensures first == None && second == Some(FailedAssertion)
  {
    ghost var once := Restricted([], [row.accountID]);
    OneRowLoads(query, row, once);
    assert IDs([account]) == [row.accountID];
    first, second := LoadTwice(query, [account], [account]);
  }

  /** Such a second load: the first succeeds, the second panics. */
  method SecondLoadPanics() returns (first: Option<LoadError>, second: Option<LoadError>)
    ensures first == None && second == Some(FailedAssertion)
  {
    var row := JoinRow(1, GroupRecord(10, "a", []));
    var js := JsonCodec((j: Json) => [], (b: seq<int>, j: Json) => Some(j));
    var query := new GroupQuery([], js, (ps: seq<Predicate>) => Ok([row]));
    var account := new Account();
    account.ID := 1;
    first, second := LoadOneTwice(query, account, row);
  }

  lemma {:induction false} OneRowLoads(query: GroupQuery, row: JoinRow, predicates: seq<Predicate>)
    requires Joins(predicates) == 1 && query.join(predicates) == Ok([row]) && row.group.routing == []
    ensures LoadGroupsError(query, predicates, [], [row.accountID]) == None
  {
    var columns, g := JoinedColumns(1, []), row.group;
    assert columns == GROUP_COLUMNS;
    var values := GroupCells(columns, g);
    assert columns[..3] == columns && columns[..3][..2] == columns[..2];
    assert columns[..2][..1] == columns[..1] && columns[..1][..0] == [];
    assert AssignGroup(query.js, columns[..1], values).Ok?;
    assert AssignGroup(query.js, columns[..2], values).Ok?;
    assert JoinError(query.js, columns, [row]) == None by {
      assert [row][..0] == [];
      assert JoinError(query.js, columns, []) == None;
    }
  }

  /** `loadGroups`, with the neighbour objects as a ghost result. */
  method LoadGroups(query: GroupQuery, nodes: seq<Account>)
    returns (err: Option<LoadError>, ghost neighbors: seq<Group>)
    modifies nodes`Groups, query`Predicates
    ensures query.Predicates == old(query.Predicates) + [Among(IDs(nodes))] && Joins(query.Predicates) > 0
    ensures err == LoadGroupsError(query, query.Predicates, query.Fields, IDs(nodes))
    ensures err.None? ==>
              && query.join(query.Predicates).Ok?
              && Loaded(query, query.Predicates, query.Fields, nodes, IDs(nodes), neighbors)
  {
    var edgeIDs, byID := IndexAccounts(nodes);
    assert Joins(Restricted(query.Predicates, edgeIDs)) > 0;
    query.Predicates := query.Predicates + [Among(edgeIDs)];
    var groups, nids;
    ghost var rows;
    err, groups, nids, rows := ReadJoined(query, byID);
    neighbors := groups;
    if err.None? {
      err := FanOutJoined(rows, groups, nids, byID, nodes, edgeIDs);
    }
  }

  /** Reads the join, unless a selected field is invalid or the query fails. */
  method ReadJoined(query: GroupQuery, byID: map<int, Account>)
    returns (err: Option<LoadError>, neighbors: seq<Group>, nids: map<int, set<Account?>>, ghost rows: seq<JoinRow>)
    requires Joins(query.Predicates) > 0
    ensures err == ReadError(query, query.Predicates, query.Fields)
    ensures err.None? ==>
              && query.join(query.Predicates) == Ok(rows)
              && Joined(neighbors, nids, query.js, JoinedColumns(Joins(query.Predicates), query.Fields), rows, byID)
  {
    neighbors, nids, rows := [], map[], [];
    var invalid := InvalidField(GROUP_COLUMNS, query.Fields);
    if invalid.Some? {
      err := Some(ValidationError(invalid.value));
      return;
    }
    var fetched := query.join(query.Predicates);
    if fetched.Err? {
      err := Some(fetched.error);
      return;
    }
    rows := fetched.value;
    err, neighbors, nids := QueryJoined(query.js, JoinedColumns(Joins(query.Predicates), query.Fields),
                                        fetched.value, byID);
  }

  /** The node lists and the neighbours after a successful load. */
  ghost predicate Loaded(query: GroupQuery, predicates: seq<Predicate>, fields: seq<Column>, nodes: seq<Account>,
                         ids: seq<int>, neighbors: seq<Group>)
    requires |nodes| == |ids| && Joins(predicates) > 0 && query.join(predicates).Ok?
    reads nodes`Groups
  {
    var rows := query.join(predicates).value;
    && NeighborsOf(neighbors, query.js, JoinedColumns(Joins(predicates), fields), rows)
    && GroupsLoaded(nodes, ids, rows, neighbors)
  }

  /** The last loop on what was read. */
  method FanOutJoined(ghost rows: seq<JoinRow>, neighbors: seq<Group>, nids: map<int, set<Account?>>,
                      ghost byID: map<int, Account>,
                      nodes: seq<Account>, ghost ids: seq<int>)
    returns (err: Option<LoadError>)
    requires ids == IDs(nodes) && IndexedByID(byID, nodes, ids)
    requires IndexesLinks(nids, byID, rows) && GroupIDList(neighbors) == FirstOccurrences(GroupIDs(rows))
    requires forall x <- nodes :: x.Groups == []
    modifies nodes`Groups
    ensures err == AttachError(rows, ids)
    ensures err.None? ==> GroupsLoaded(nodes, ids, rows, neighbors)
  {
    forall g <- nids, x: Account? <- nids[g]
      ensures x == null || x in nodes
    {
      LinkedNodes(nodes, ids, byID, rows, g, x);
    }
    FanOutOfJoin(nodes, ids, byID, rows, nids, neighbors);
    err := FanOut(neighbors, nids, set n | n in nodes);
    if err.None? {
      FannedOut(nodes, ids, byID, rows, nids, neighbors);
    }
  }

  lemma {:induction false} FannedOut(
      nodes: seq<Account>, ids: seq<int>, byID: map<int, Account>, rows: seq<JoinRow>,
      nids: map<int, set<Account?>>, neighbors: seq<Group>)
    requires ids == IDs(nodes) && IndexedByID(byID, nodes, ids)
    requires IndexesLinks(nids, byID, rows) && GroupIDList(neighbors) == FirstOccurrences(GroupIDs(rows))
    requires forall x <- nodes :: x.Groups == Attached(neighbors, nids, x)
    ensures GroupsLoaded(nodes, ids, rows, neighbors)
  {
    assert forall n <- neighbors :: n.ID in GroupIDList(neighbors);
    forall i | 0 <= i < |nodes|
      ensures forall g <- nodes[i].Groups :: g in neighbors
      ensures GroupIDList(nodes[i].Groups) ==
              if Owner(nodes, ids, ids[i]) == Some(nodes[i]) then GroupsOf(rows, ids[i]) else []
    {
      AttachedAmong(neighbors, nids, nodes[i]);
      AttachedIsNaiveJoin(nodes, ids, byID, rows, nids, neighbors, nodes[i]);
    }
  }

  lemma {:induction false} GroupsOfMeaning(rows: seq<JoinRow>, a: int)
    ensures NoDup(GroupsOf(rows, a))
    ensures forall g :: g in GroupsOf(rows, a) <==> Paired(rows, a, g)
    ensures forall i, j :: 0 <= i < j < |GroupsOf(rows, a)| ==>
              FirstIndex(GroupIDs(rows), GroupsOf(rows, a)[i]) < FirstIndex(GroupIDs(rows), GroupsOf(rows, a)[j])
  {
    var all := GroupIDs(rows);
    var groups := FirstOccurrences(all);
    FirstOccurrencesOrder(all);
    NaiveJoinMeaning(groups, rows, a);
    forall g | Paired(rows, a, g)
      ensures g in groups
    {
      var k :| 0 <= k < |rows| && rows[k].accountID == a && rows[k].group.id == g;
      assert all[k] == g;
    }
    var r := GroupsOf(rows, a);
    forall i, j | 0 <= i < j < |r|
      ensures FirstIndex(all, r[i]) < FirstIndex(all, r[j])
    {
      assert r[i] in groups && r[j] in groups;
      assert groups[FirstIndex(groups, r[i])] == r[i] && groups[FirstIndex(groups, r[j])] == r[j];
    }
  }

  /** A list of groups is the join of one account: every group paired with it and
      no other, each once, in the order of first appearance in the result. */
  ghost predicate IsJoin(held: seq<int>, rows: seq<JoinRow>, a: int) {
    && NoDup(held)
    && (forall g :: g in held <==> Paired(rows, a, g))
    && forall k, l :: 0 <= k < l < |held| ==> FirstIndex(GroupIDs(rows), held[k]) < FirstIndex(GroupIDs(rows), held[l])
  }

  /** The many-to-many load is the naive join: with distinct account IDs, each
      account holds every group paired with it, each once, in the order the groups
      first appear in the result. */
  lemma {:induction false} LoadRefinesNaiveJoin(
      nodes: seq<Account>, ids: seq<int>, rows: seq<JoinRow>, neighbors: seq<Group>)
    requires ids == IDs(nodes) && NoDup(ids) && GroupsLoaded(nodes, ids, rows, neighbors)
    ensures forall i :: 0 <= i < |nodes| ==> IsJoin(GroupIDList(nodes[i].Groups), rows, ids[i])
  {
    OwnersWhenDistinct(nodes, ids);
    forall i | 0 <= i < |nodes|
      ensures IsJoin(GroupIDList(nodes[i].Groups), rows, ids[i])
    {
      GroupsOfMeaning(rows, ids[i]);
      assert GroupIDList(nodes[i].Groups) == GroupsOf(rows, ids[i]);
    }
  }

  /** A group that two accounts hold is one object. */
  lemma {:induction false} GroupsAreShared(nodes: seq<Account>, ids: seq<int>, rows: seq<JoinRow>,
                                           neighbors: seq<Group>)
    requires |nodes| == |ids| && GroupsLoaded(nodes, ids, rows, neighbors)
    requires GroupIDList(neighbors) == FirstOccurrences(GroupIDs(rows))
    ensures forall x <- nodes, y <- nodes, g <- x.Groups, h <- y.Groups :: g.ID == h.ID ==> g == h
  {
    forall g <- neighbors, h <- neighbors | g.ID == h.ID
      ensures g == h
    {
      var k :| 0 <= k < |neighbors| && neighbors[k] == g;
      var l :| 0 <= l < |neighbors| && neighbors[l] == h;
      var list := GroupIDList(neighbors);
      assert list[k] == list[l];
    }
  }

  /** With duplicate account IDs every node still gets its join if and only if each
      account with two nodes has no groups. */
  lemma {:induction false} DuplicatesAreServedIff(
      nodes: seq<Account>, ids: seq<int>, rows: seq<JoinRow>, neighbors: seq<Group>)
    requires |nodes| == |ids| && NoDup(nodes) && GroupsLoaded(nodes, ids, rows, neighbors)
    ensures (forall i :: 0 <= i < |nodes| ==> GroupIDList(nodes[i].Groups) == GroupsOf(rows, ids[i])) <==>
            forall i, j :: 0 <= i < j < |ids| && ids[i] == ids[j] ==> GroupsOf(rows, ids[i]) == []
  {
    forall i | 0 <= i < |nodes|
      ensures GroupIDList(nodes[i].Groups) == GroupsOf(rows, ids[i]) <==>
              forall j :: i < j < |ids| && ids[j] == ids[i] ==> GroupsOf(rows, ids[i]) == []
    {
      LostIsExact(nodes, ids, i);
    }
  }

  // ------------------------------------------------------------------------
  // Loading from a table
  // ------------------------------------------------------------------------

  /** The query answers from a table of edges, joined once with their groups. */
  ghost predicate Backed(query: GroupQuery, table: Table<JoinRow>) {
    && (forall row <- table.records :: table.key(row) == Some(row.accountID))
    && (forall ps :: Joins(ps) == 1 ==> query.join(ps) == Ok(Matching(table, table.records, ps)))
  }

  /** Every stored group decodes from these columns. */
  ghost predicate Decodable(js: JsonCodec, columns: seq<Column>, table: Table<JoinRow>) {
    forall row <- table.records :: DecodeGroup(js, columns, row.group).Ok?
  }

  /** The group is decoded from a stored one. */
  ghost predicate FromTable(g: Group, js: JsonCodec, columns: seq<Column>, table: Table<JoinRow>) {
    exists row <- table.records :: row.group.id == g.ID && DecodeGroup(js, columns, row.group) == Ok(FieldsOf(g))
  }

  /** The account holds each group stored for it that satisfies the predicates, no
      other, and each once. */
  ghost predicate HoldsStored(x: Account, js: JsonCodec, columns: seq<Column>, table: Table<JoinRow>,
                              predicates: seq<Predicate>, id: int)
    reads x`Groups
  {
    && NoDup(GroupIDList(x.Groups))
    && (forall g :: g in GroupIDList(x.Groups) <==> g in GroupIDs(Stored(table, table.records, predicates, id)))
    && forall g <- x.Groups :: FromTable(g, js, columns, table)
  }

  /** Every node that owns its ID holds what is stored for it, the others nothing. */
  ghost predicate AllServed(nodes: seq<Account>, ids: seq<int>, js: JsonCodec, columns: seq<Column>,
                            table: Table<JoinRow>, predicates: seq<Predicate>)
    requires |nodes| == |ids|
    reads nodes`Groups
  {
    forall i :: 0 <= i < |nodes| ==>
      if Owner(nodes, ids, ids[i]) == Some(nodes[i])
      then HoldsStored(nodes[i], js, columns, table, predicates, ids[i])
      else nodes[i].Groups == []
  }

  lemma {:induction false} PairedIsStored(table: Table<JoinRow>, predicates: seq<Predicate>, ids: seq<int>, a: int,
                                          g: int)
    requires forall row <- table.records :: table.key(row) == Some(row.accountID)
    requires a in ids
    ensures Paired(Matching(table, table.records, predicates + [Among(ids)]), a, g) <==>
            g in GroupIDs(Stored(table, table.records, predicates, a))
  {
    var rows, stored := Matching(table, table.records, predicates + [Among(ids)]),
                        Stored(table, table.records, predicates, a);
    StoredAgain(table, table.records, predicates, ids, a);
    forall row
      ensures row in stored <==> row in rows && row.accountID == a
    {
      StoredMembers(table, table.records, predicates + [Among(ids)], a, row);
      MatchingMembers(table, table.records, predicates + [Among(ids)], row);
    }
    if g in GroupIDs(stored) {
      var k :| 0 <= k < |stored| && GroupIDs(stored)[k] == g;
      assert stored[k] in rows && stored[k].accountID == a && stored[k].group.id == g;
    }
    if Paired(rows, a, g) {
      var row :| row in rows && row.accountID == a && row.group.id == g;
      var k :| 0 <= k < |stored| && stored[k] == row;
      assert GroupIDs(stored)[k] == g;
    }
  }

  /** What a query restricted to some accounts answers from a table decodes and is
      about these accounts. */
  lemma {:induction false} AnswerLoads(query: GroupQuery, table: Table<JoinRow>, predicates: seq<Predicate>,
                                       fields: seq<Column>, ids: seq<int>)
    requires Backed(query, table) && InvalidField(GROUP_COLUMNS, fields).None?
    requires Decodable(query.js, ColumnsOf(GROUP_COLUMNS, true, fields, []), table)
    requires forall p <- predicates :: p.Filter?
    ensures Joins(predicates + [Among(ids)]) == 1
    ensures query.join(predicates + [Among(ids)]) == Ok(Matching(table, table.records, predicates + [Among(ids)]))
    ensures LoadGroupsError(query, predicates + [Among(ids)], fields, ids) == None
  {
    FiltersDoNotJoin(predicates);
    var more := Restricted(predicates, ids);
    var rows := Matching(table, table.records, more);
    forall row <- rows
      ensures row in table.records && row.accountID in ids
    {
      MatchingMembers(table, table.records, more, row);
      SatisfiesMore(table, row, predicates, ids);
    }
    assert query.join(more) == Ok(rows);
    LoadErrorIsExact(query, more, fields, ids, |rows|);
  }

  lemma {:induction false} ServedFromTable(
      query: GroupQuery, table: Table<JoinRow>, predicates: seq<Predicate>, fields: seq<Column>, nodes: seq<Account>,
      ids: seq<int>, neighbors: seq<Group>)
    requires |nodes| == |ids| && Backed(query, table) && Joins(predicates + [Among(ids)]) == 1
    requires query.join(predicates + [Among(ids)]) == Ok(Matching(table, table.records, predicates + [Among(ids)]))
    requires Loaded(query, predicates + [Among(ids)], fields, nodes, ids, neighbors)
    ensures AllServed(nodes, ids, query.js, ColumnsOf(GROUP_COLUMNS, true, fields, []), table, predicates)
  {
    var columns := ColumnsOf(GROUP_COLUMNS, true, fields, []);
    forall n <- neighbors
      ensures FromTable(n, query.js, columns, table)
    {
      StoredNeighbor(query.js, columns, table, predicates + [Among(ids)], n);
    }
    var rows := Matching(table, table.records, predicates + [Among(ids)]);
    forall i | 0 <= i < |nodes|
      ensures if Owner(nodes, ids, ids[i]) == Some(nodes[i])
              then HoldsStored(nodes[i], query.js, columns, table, predicates, ids[i])
              else nodes[i].Groups == []
    {
      if Owner(nodes, ids, ids[i]) == Some(nodes[i]) {
        JoinIsStored(nodes[i], query.js, columns, table, predicates, ids, ids[i]);
      } else {
        assert GroupIDList(nodes[i].Groups) == [];
      }
    }
  }

  /** A list of stored groups that is the join of one account holds what is stored for it. */
  lemma {:induction false} JoinIsStored(x: Account, js: JsonCodec, columns: seq<Column>, table: Table<JoinRow>,
                                        predicates: seq<Predicate>, ids: seq<int>, id: int)
    requires forall row <- table.records :: table.key(row) == Some(row.accountID)
    requires GroupIDList(x.Groups) == GroupsOf(Matching(table, table.records, predicates + [Among(ids)]), id)
    requires id in ids && forall g <- x.Groups :: FromTable(g, js, columns, table)
    ensures HoldsStored(x, js, columns, table, predicates, id)
  {
    GroupsOfMeaning(Matching(table, table.records, predicates + [Among(ids)]), id);
    forall g {
      PairedIsStored(table, predicates, ids, id, g);
    }
  }

  lemma {:induction false} StoredNeighbor(js: JsonCodec, columns: seq<Column>, table: Table<JoinRow>,
                                          predicates: seq<Predicate>, n: Group)
    requires FromFirstRow(n, js, columns, Matching(table, table.records, predicates))
    ensures FromTable(n, js, columns, table)
  {
    var rows := Matching(table, table.records, predicates);
    var first := FirstIndex(GroupIDs(rows), n.ID);
    MatchingMembers(table, table.records, predicates, rows[first]);
    assert GroupIDs(rows)[first] == n.ID;
  }

  /** A first load from a table succeeds and gives every account that owns its ID the
      groups stored for it that satisfy the predicates the query had before. */
  method LoadFromTable(query: GroupQuery, ghost table: Table<JoinRow>, nodes: seq<Account>)
    returns (err: Option<LoadError>)
    requires Backed(query, table) && InvalidField(GROUP_COLUMNS, query.Fields).None?
    requires Decodable(query.js, ColumnsOf(GROUP_COLUMNS, true, query.Fields, []), table)
    requires forall p <- query.Predicates :: p.Filter?
    modifies nodes`Groups, query`Predicates
    ensures err.None? && query.Predicates == old(query.Predicates) + [Among(IDs(nodes))]
    ensures AllServed(nodes, IDs(nodes), query.js, ColumnsOf(GROUP_COLUMNS, true, query.Fields, []), table,
                      old(query.Predicates))
  {
    ghost var predicates, ids := query.Predicates, IDs(nodes);
    AnswerLoads(query, table, predicates, query.Fields, ids);
    ghost var neighbors;
    err, neighbors := LoadGroups(query, nodes);
    assert IDs(nodes) == ids;
    ServedFromTable(query, table, predicates, query.Fields, nodes, ids, neighbors);
  }

  // ------------------------------------------------------------------------
  // Which order
  // ------------------------------------------------------------------------

  /** The account's own rows. */
  function RowsOf(rows: seq<JoinRow>, a: int): seq<JoinRow> {
    if rows == [] then []
    else RowsOf(rows[..|rows|-1], a) + if rows[|rows|-1].accountID == a then [rows[|rows|-1]] else []
  }

  /** The groups of the account in the order of its own rows. */
  function OwnOrder(rows: seq<JoinRow>, a: int): seq<int> {
    FirstOccurrences(GroupIDs(RowsOf(rows, a)))
  }

  lemma {:induction false} OwnGroups(rows: seq<JoinRow>, a: int)
    ensures forall g :: g in GroupIDs(RowsOf(rows, a)) <==> Paired(rows, a, g)
  {
    if rows != [] {
      var p, row := rows[..|rows|-1], rows[|rows|-1];
      assert rows == p + [row];
      OwnGroups(p, a);
      assert GroupIDs(RowsOf(rows, a)) == GroupIDs(RowsOf(p, a)) + if row.accountID == a then [row.group.id] else [];
      forall g
        ensures Paired(rows, a, g) <==> Paired(p, a, g) || (row.accountID == a && row.group.id == g)
      {
      }
    }
  }

  /** `s` lists IDs in the order in which they first appear in `all`. */
  ghost predicate InOrderOf(all: seq<int>, s: seq<int>) {
    forall i, j :: 0 <= i < j < |s| ==> FirstIndex(all, s[i]) < FirstIndex(all, s[j])
  }

  lemma {:induction false} LastTogether(all: seq<int>, s: seq<int>, t: seq<int>)
    requires InOrderOf(all, s) && InOrderOf(all, t)
    requires forall x :: x in s <==> x in t
    requires s != []
    ensures t != [] && s[|s|-1] == t[|t|-1]
  {
    var x := s[|s|-1];
    assert x in s && x in t;
    var y := t[|t|-1];
    assert y in t && y in s;
  }

  lemma {:induction false} OrderDetermines(all: seq<int>, s: seq<int>, t: seq<int>)
    requires InOrderOf(all, s) && InOrderOf(all, t)
    requires forall x :: x in s <==> x in t
    ensures s == t
    decreases |s|
  {
    if t != [] {
      LastTogether(all, t, s);
      var p, q, x := s[..|s|-1], t[..|t|-1], t[|t|-1];
      assert s == p + [x] && t == q + [x];
      forall z
        ensures z in p <==> z in q
      {
        assert x !in p && x !in q;
        assert z in s <==> z in p || z == x;
        assert z in t <==> z in q || z == x;
      }
      OrderDetermines(all, p, q);
    } else {
      HasMember(s);
    }
  }

  lemma {:induction false} HasMember(s: seq<int>)
    ensures s != [] ==> exists x :: x in s
  {
    if s != [] {
      var x := s[0];
      assert x in s;
    }
  }

  lemma {:induction false} OrderAt(all: seq<int>, s: seq<int>, i: nat, j: nat)
    requires InOrderOf(all, s) && i < |s| && j < |s|
    ensures FirstIndex(all, s[i]) < FirstIndex(all, s[j]) <==> i < j
  {
  }

  /** The whole result and the account's own rows agree which of two groups of the
      account appears first. */
  ghost predicate OrdersAgree(rows: seq<JoinRow>, a: int) {
    var all, own := GroupIDs(rows), GroupIDs(RowsOf(rows, a));
    forall g, h :: Paired(rows, a, g) && Paired(rows, a, h) ==>
      (FirstIndex(all, g) < FirstIndex(all, h) <==> FirstIndex(own, g) < FirstIndex(own, h))
  }

  /** An account is given its groups in the order of its own rows if and only if
      the rows of the other accounts do not bring two of its groups forward the
      other way round. */
  lemma {:induction false} OrderIsExact(rows: seq<JoinRow>, a: int)
    ensures GroupsOf(rows, a) == OwnOrder(rows, a) <==> OrdersAgree(rows, a)
  {
    var all, own := GroupIDs(rows), GroupIDs(RowsOf(rows, a));
    var given, listed := GroupsOf(rows, a), OwnOrder(rows, a);
    GroupsOfMeaning(rows, a);
    OwnGroups(rows, a);
    FirstOccurrencesOrder(own);
    if OrdersAgree(rows, a) {
      forall i, j | 0 <= i < j < |listed|
        ensures FirstIndex(all, listed[i]) < FirstIndex(all, listed[j])
      {
        assert listed[i] in listed && listed[j] in listed;
      }
      OrderDetermines(all, given, listed);
    } else if given == listed {
      SameListAgrees(rows, a);
    }
  }

  lemma {:induction false} SameListAgrees(rows: seq<JoinRow>, a: int)
    requires InOrderOf(GroupIDs(rows), GroupsOf(rows, a)) && InOrderOf(GroupIDs(RowsOf(rows, a)), GroupsOf(rows, a))
    requires forall g :: g in GroupsOf(rows, a) <==> Paired(rows, a, g)
    ensures OrdersAgree(rows, a)
  {
    var s := GroupsOf(rows, a);
    forall g, h | Paired(rows, a, g) && Paired(rows, a, h)
      ensures FirstIndex(GroupIDs(rows), g) < FirstIndex(GroupIDs(rows), h) <==>
              FirstIndex(GroupIDs(RowsOf(rows, a)), g) < FirstIndex(GroupIDs(RowsOf(rows, a)), h)
    {
      var i :| 0 <= i < |s| && s[i] == g;
      var j :| 0 <= j < |s| && s[j] == h;
      OrderAt(GroupIDs(rows), s, i, j);
      OrderAt(GroupIDs(RowsOf(rows, a)), s, i, j);
    }
  }

  /** Such rows exist: account 2 lists group 20 before group 10 but is given 10
      first, because another account brought it forward. */
  lemma {:induction false} OrderIsOfTheWholeResult(rows: seq<JoinRow>)
    requires rows == [JoinRow(1, GroupRecord(10, "", [])),
                      JoinRow(2, GroupRecord(20, "", [])), JoinRow(2, GroupRecord(10, "", []))]
    ensures GroupsOf(rows, 2) == [10, 20]
  {
    assert GroupIDs(rows) == [10, 20, 10];
    assert rows[1] in rows && rows[2] in rows;
    assert Paired(rows, 2, 10) && Paired(rows, 2, 20);
    TwoGivenInOrder(rows, 2);
  }

  lemma {:induction false} TwoGivenInOrder(rows: seq<JoinRow>, a: int)
    requires GroupIDs(rows) == [10, 20, 10] && Paired(rows, a, 10) && Paired(rows, a, 20)
    ensures GroupsOf(rows, a) == [10, 20]
  {
    TwoThenFirstAgain();
    NaiveJoinExtended([], rows, a, 10);
    NaiveJoinExtended([10], rows, a, 20);
    assert [] + [10] == [10] && [10] + [20] == [10, 20];
  }

  lemma {:induction false} TwoThenFirstAgain()
    ensures FirstOccurrences([10, 20, 10]) == [10, 20]
  {
    assert [10, 20, 10] == ([] + [10] + [20]) + [10];
    FirstOccurrencesExtended([], 10);
    FirstOccurrencesExtended([] + [10], 20);
    FirstOccurrencesExtended([] + [10] + [20], 10);
  }

  lemma {:induction false} NaiveJoinExtended(groups: seq<int>, rows: seq<JoinRow>, a: int, g: int)
    requires Paired(rows, a, g)
    ensures NaiveJoin(groups + [g], rows, a) == NaiveJoin(groups, rows, a) + [g]
  {
    assert (groups + [g])[..|groups|] == groups;
  }
}
