/** The entity of the edge table between accounts and groups: a composite key
    written through two M2O edges, and no ID. */
module AccountGroups {
  import opened Prelude
  import opened RowCodec
  import opened AccountCreating

  // ------------------------------------------------------------------------
  // Reading
  // ------------------------------------------------------------------------

  datatype LinkRow = LinkRow(AccountID: int, GroupID: int,
                              Priority: int, CreatedAt: Time, selectValues: map<Column, Cell>)

  const ZERO_LINK := LinkRow(0, 0, 0, 0, map[])

  const LINK_COLUMNS: seq<Column> := [FieldAccountID, FieldGroupID, FieldPriority, FieldCreatedAt]

  /** The holder `scanValues` chooses for a column. */
  function LinkKind(c: Column): Kind {
    match c
    case FieldAccountID => NullInt64Kind
    case FieldGroupID => NullInt64Kind
    case FieldPriority => NullInt64Kind
    case FieldCreatedAt => NullTimeKind
    case _ => UnknownKind
  }

  /** One turn of the loop of `assignValues`. */
  function AssignLinkColumn(v: LinkRow, c: Column, cell: Cell): Result<LinkRow, AssignError> {
    match c
    case FieldAccountID =>
      if !cell.NullInt64? then Err(TypeMismatch(c)) else if cell.valid then Ok(v.(AccountID := cell.int64)) else Ok(v)
    case FieldGroupID =>
      if !cell.NullInt64? then Err(TypeMismatch(c)) else if cell.valid then Ok(v.(GroupID := cell.int64)) else Ok(v)
    case FieldPriority =>
      if !cell.NullInt64? then Err(TypeMismatch(c)) else if cell.valid then Ok(v.(Priority := cell.int64)) else Ok(v)
    case FieldCreatedAt =>
      if !cell.NullTime? then Err(TypeMismatch(c)) else if cell.valid then Ok(v.(CreatedAt := cell.time)) else Ok(v)
    case _ => Ok(v.(selectValues := v.selectValues[c := cell]))
  }

  function AssignLink(v: LinkRow, columns: seq<Column>, values: seq<Cell>): Result<LinkRow, AssignError>
    requires |columns| <= |values|
  {
    if columns == [] then Ok(v)
    else
      var k := |columns| - 1;
      match AssignLink(v, columns[..k], values)
      case Err(e) => Err(e)
      case Ok(w) => AssignLinkColumn(w, columns[k], values[k])
  }

  /** The fields the loop leaves: those after the columns before the first that fails. */
  function ReachedLink(v: LinkRow, columns: seq<Column>, values: seq<Cell>): LinkRow
    requires |columns| <= |values|
  {
    match AssignLink(v, columns, values)
    case Ok(w) => w
    case Err(_) => if columns == [] then v else ReachedLink(v, columns[..|columns|-1], values)
  }

  lemma {:induction false} AssignLinkStops(v: LinkRow, columns: seq<Column>, values: seq<Cell>, k: nat)
    requires k <= |columns| <= |values|
    requires AssignLink(v, columns[..k], values).Err?
    ensures AssignLink(v, columns, values) == AssignLink(v, columns[..k], values)
    ensures ReachedLink(v, columns, values) == ReachedLink(v, columns[..k], values)
    decreases |columns| - k
  {
    if k < |columns| {
      assert columns[..k+1][..k] == columns[..k];
      AssignLinkStops(v, columns, values, k + 1);
    } else {
      assert columns[..k] == columns;
    }
  }

  class AccountGroup {
    var AccountID: int
    var GroupID: int
    var Priority: int
    var CreatedAt: Time
    var selectValues: map<Column, Cell>

    constructor ()
      ensures Row() == ZERO_LINK
    {
      AccountID, GroupID, Priority, CreatedAt, selectValues := 0, 0, 0, 0, map[];
    }

    function Row(): LinkRow
      reads this
    {
      LinkRow(AccountID, GroupID, Priority, CreatedAt, selectValues)
    }

    method AssignValues(columns: seq<Column>, values: seq<Cell>) returns (err: Option<AssignError>)
      modifies this
      ensures |values| < |columns| ==> err == Some(LengthMismatch(|values|, |columns|)) && Row() == old(Row())
      ensures |values| >= |columns| ==>
                match AssignLink(old(Row()), columns, values)
                case Ok(w) => err == None && Row() == w
                case Err(e) => err == Some(e) && Row() == ReachedLink(old(Row()), columns, values)
    {
      if |values| < |columns| {
        return Some(LengthMismatch(|values|, |columns|));
      }
      for i := 0 to |columns|
        invariant AssignLink(old(Row()), columns[..i], values) == Ok(Row())
      {
        assert columns[..i+1][..i] == columns[..i];
        var c, cell := columns[i], values[i];
        ghost var step := AssignLinkColumn(Row(), c, cell);
        assert AssignLink(old(Row()), columns[..i+1], values) == step;
        if step.Err? {
          AssignLinkStops(old(Row()), columns, values, i + 1);
        }
        match c {
          case FieldAccountID =>
            if !cell.NullInt64? { return Some(TypeMismatch(c)); }
            if cell.valid { AccountID := cell.int64; }
          case FieldGroupID =>
            if !cell.NullInt64? { return Some(TypeMismatch(c)); }
            if cell.valid { GroupID := cell.int64; }
          case FieldPriority =>
            if !cell.NullInt64? { return Some(TypeMismatch(c)); }
            if cell.valid { Priority := cell.int64; }
          case FieldCreatedAt =>
            if !cell.NullTime? { return Some(TypeMismatch(c)); }
            if cell.valid { CreatedAt := cell.time; }
          case _ =>
            selectValues := selectValues[c := cell];
        }
      }
      assert columns[..|columns|] == columns;
      return None;
    }
  }

  /** The stored values have the types of the schema. */
  ghost predicate LinkTyped(row: Row) {
    forall c :: Fits(LinkKind(c), Lookup(row, c))
  }

  function LinkCells(columns: seq<Column>, row: Row): (values: seq<Cell>)
    requires forall c <- columns :: Fits(LinkKind(c), Lookup(row, c))
    ensures |values| == |columns|
    ensures forall i :: 0 <= i < |columns| ==> values[i] == Scan(LinkKind(columns[i]), Lookup(row, columns[i]))
  {
    seq(|columns|, i requires 0 <= i < |columns| => Scan(LinkKind(columns[i]), Lookup(row, columns[i])))
  }

  function DecodeLink(columns: seq<Column>, row: Row): Result<LinkRow, AssignError>
    requires forall c <- columns :: Fits(LinkKind(c), Lookup(row, c))
  {
    AssignLink(ZERO_LINK, columns, LinkCells(columns, row))
  }

  /** The field of a column, all of them numbers. */
  function LinkField(v: LinkRow, c: Column): int
    requires LinkKind(c) != UnknownKind
  {
    match c
    case FieldAccountID => v.AccountID
    case FieldGroupID => v.GroupID
    case FieldPriority => v.Priority
    case FieldCreatedAt => v.CreatedAt
  }

  function Number(v: DbValue): int {
    match v
    case Int(i) => i
    case Timestamp(t) => t
    case _ => 0
  }

  lemma {:induction false} LinkColumnFrame(w: LinkRow, column: Column, cell: Cell, c: Column)
    requires KindOf(cell) == LinkKind(column)
    ensures AssignLinkColumn(w, column, cell).Ok?
    ensures var w' := AssignLinkColumn(w, column, cell).value;
            && (LinkKind(c) != UnknownKind ==>
                  LinkField(w', c) == if c == column && Taken(c, cell) then Number(CellValue(cell))
                                     else LinkField(w, c))
            && (c in w'.selectValues <==> c in w.selectValues || (c == column && LinkKind(c) == UnknownKind))
  {
  }

  /** Reading never fails, and a field depends on the column list only through
      whether its column was selected. */
  lemma {:induction false} DecodedLink(columns: seq<Column>, row: Row, values: seq<Cell>)
    requires LinkTyped(row) && |columns| <= |values|
    requires forall i :: 0 <= i < |columns| ==> values[i] == Scan(LinkKind(columns[i]), Lookup(row, columns[i]))
    ensures AssignLink(ZERO_LINK, columns, values).Ok?
    ensures var w := AssignLink(ZERO_LINK, columns, values).value;
            && (forall c | LinkKind(c) != UnknownKind ::
                 LinkField(w, c) == if c in columns then Number(Lookup(row, c)) else 0)
            && (forall c :: c in w.selectValues <==> c in columns && LinkKind(c) == UnknownKind)
  {
    if columns != [] {
      var k := |columns| - 1;
      var last := columns[k];
      assert columns == columns[..k] + [last];
      DecodedLink(columns[..k], row, values);
      assert Fits(LinkKind(last), Lookup(row, last));
      var w := AssignLink(ZERO_LINK, columns[..k], values).value;
      forall c {
        LinkColumnFrame(w, last, values[k], c);
      }
    }
  }

  // ------------------------------------------------------------------------
  // Creating
  // ------------------------------------------------------------------------

  /** What a create mutation holds. */
  datatype LinkFields = LinkFields(account: Option<int>, group: Option<int>,
                                    priority: Option<int>, createdAt: Option<Time>)

  /** `check`: the first complaint. */
  function CheckLink(f: LinkFields): Option<CreateError> {
    if f.account.None? then Some(Missing(FieldAccountID))
    else if f.group.None? then Some(Missing(FieldGroupID))
    else if f.priority.None? then Some(Missing(FieldPriority))
    else if f.createdAt.None? then Some(Missing(FieldCreatedAt))
    else None
  }

  function LinkNode(f: LinkFields): LinkRow {
    LinkRow(
      if f.account.None? then 0 else f.account.value,
      if f.group.None? then 0 else f.group.value,
      if f.priority.None? then 0 else f.priority.value,
      if f.createdAt.None? then 0 else f.createdAt.value,
      map[])
  }

  function LinkSpec(f: LinkFields): CreateSpec {
    var fields := SetIf([], FieldPriority, PriorityValue(f));
    var edges := AddIf([], ToOne(FieldAccountID, f.account));
    CreateSpec(SetIf(fields, FieldCreatedAt, CreatedAtValue(f)), AddIf(edges, ToOne(FieldGroupID, f.group)))
  }

  function PriorityValue(f: LinkFields): Option<FieldValue> {
    if f.priority.None? then None else Some(IntValue(f.priority.value))
  }

  function CreatedAtValue(f: LinkFields): Option<FieldValue> {
    if f.createdAt.None? then None else Some(TimeValue(f.createdAt.value))
  }

  /** `createSpec`: the keys go into edges, the node gets them as fields. */
  method BuildLinkSpec(f: LinkFields) returns (node: AccountGroup, spec: CreateSpec)
    ensures fresh(node) && node.Row() == LinkNode(f)
    ensures spec == LinkSpec(f)
  {
    node := new AccountGroup();
    var fields: seq<FieldSpec>, edges: seq<EdgeSpec> := [], [];
    if f.priority.Some? {
      fields := fields + [FieldSpec(FieldPriority, IntValue(f.priority.value))];
      node.Priority := f.priority.value;
    }
    if f.createdAt.Some? {
      fields := fields + [FieldSpec(FieldCreatedAt, TimeValue(f.createdAt.value))];
      node.CreatedAt := f.createdAt.value;
    }
    if f.account.Some? {
      edges := edges + [M2OEdge(FieldAccountID, f.account.value)];
      node.AccountID := f.account.value;
    }
    if f.group.Some? {
      edges := edges + [M2OEdge(FieldGroupID, f.group.value)];
      node.GroupID := f.group.value;
    }
    spec := CreateSpec(fields, edges);
  }

  /** What inserting the spec stores: there is no ID column. */
  function StoredLink(js: JsonCodec, spec: CreateSpec): Row {
    StoredRow(js, None, spec)
  }

  function GivenLink(f: LinkFields, c: Column): DbValue {
    match c
    case FieldAccountID => if f.account.None? then Null else Int(f.account.value)
    case FieldGroupID => if f.group.None? then Null else Int(f.group.value)
    case FieldPriority => if f.priority.None? then Null else Int(f.priority.value)
    case FieldCreatedAt => if f.createdAt.None? then Null else Timestamp(f.createdAt.value)
    case _ => Null
  }

  lemma {:induction false} LinkFieldsHold(f: LinkFields, c: Column)
    ensures FieldIn(LinkSpec(f).fields, c) ==
            if c == FieldPriority then PriorityValue(f) else if c == FieldCreatedAt then CreatedAtValue(f) else None
  {
    SetIfAt([], FieldPriority, PriorityValue(f), c);
    SetIfAt(SetIf([], FieldPriority, PriorityValue(f)), FieldCreatedAt, CreatedAtValue(f), c);
  }

  lemma {:induction false} LinkEdgesHold(f: LinkFields, c: Column)
    ensures EdgeIn(LinkSpec(f).edges, c) ==
            if c == FieldAccountID then f.account else if c == FieldGroupID then f.group else None
  {
    AddIfAt([], ToOne(FieldAccountID, f.account), c);
    AddIfAt(AddIf([], ToOne(FieldAccountID, f.account)), ToOne(FieldGroupID, f.group), c);
  }

  lemma {:induction false} LinkColumnHolds(js: JsonCodec, f: LinkFields, spec: CreateSpec, c: Column)
    requires FieldIn(spec.fields, c) ==
             if c == FieldPriority then PriorityValue(f) else if c == FieldCreatedAt then CreatedAtValue(f) else None
    requires EdgeIn(spec.edges, c) ==
             if c == FieldAccountID then f.account else if c == FieldGroupID then f.group else None
    ensures OrNull(ColumnValue(js, None, spec, c)) == GivenLink(f, c)
  {
  }

  function OrNull(v: Option<DbValue>): DbValue {
    if v.None? then Null else v.value
  }

  /** The stored row holds exactly what the mutation gave, the keys included. */
  lemma {:induction false} StoredLinkHolds(js: JsonCodec, f: LinkFields, c: Column)
    ensures Lookup(StoredLink(js, LinkSpec(f)), c) == GivenLink(f, c)
  {
    var spec := LinkSpec(f);
    LinkFieldsHold(f, c);
    LinkEdgesHold(f, c);
    LinkColumnHolds(js, f, spec, c);
    StoredAt(js, None, spec, c);
  }

  /** Create, then read: through any column list naming the table's columns in any
      order and number, the row a spec writes is the node `createSpec` returned. */
  lemma {:induction false} LinkRoundTrip(js: JsonCodec, f: LinkFields, columns: seq<Column>)
    requires forall c :: c in columns <==> c in LINK_COLUMNS
    ensures var row := StoredLink(js, LinkSpec(f));
            LinkTyped(row) && DecodeLink(columns, row) == Ok(LinkNode(f))
  {
    var row := StoredLink(js, LinkSpec(f));
    StoredLinkTyped(js, f);
    LinkColumnsNamed(columns);
    DecodedLink(columns, row, LinkCells(columns, row));
    var w := DecodeLink(columns, row).value;
    forall c | LinkKind(c) != UnknownKind
      ensures LinkField(w, c) == LinkField(LinkNode(f), c)
    {
      StoredLinkHolds(js, f, c);
      NumberGiven(f, c);
    }
    SameLink(w, LinkNode(f));
  }

  lemma {:induction false} NumberGiven(f: LinkFields, c: Column)
    requires LinkKind(c) != UnknownKind
    ensures Number(GivenLink(f, c)) == LinkField(LinkNode(f), c)
  {
  }

  lemma {:induction false} StoredLinkTyped(js: JsonCodec, f: LinkFields)
    ensures LinkTyped(StoredLink(js, LinkSpec(f)))
  {
    forall c
      ensures Fits(LinkKind(c), Lookup(StoredLink(js, LinkSpec(f)), c))
    {
      StoredLinkHolds(js, f, c);
    }
  }

  /** The first column of the link that holds NULL, if any does. */
  ghost predicate FirstNull(row: Row, k: nat) {
    && k <= 4 && (k < 4 ==> Lookup(row, LINK_COLUMNS[k]).Null?)
    && forall j :: 0 <= j < k ==> !Lookup(row, LINK_COLUMNS[j]).Null?
  }

  lemma {:induction false} CheckedIsGiven(f: LinkFields, row: Row)
    requires forall c :: Lookup(row, c) == GivenLink(f, c)
    ensures CheckLink(f).None? <==> forall c | LinkKind(c) != UnknownKind :: !Lookup(row, c).Null?
    ensures exists k: nat :: FirstNull(row, k) && CheckLink(f) == if k < 4 then Some(Missing(LINK_COLUMNS[k])) else None
  {
    var k := if f.account.None? then 0 else if f.group.None? then 1
             else if f.priority.None? then 2 else if f.createdAt.None? then 3 else 4;
    assert FirstNull(row, k);
    assert GivenLink(f, FieldAccountID).Null? <==> f.account.None?;
    assert GivenLink(f, FieldGroupID).Null? <==> f.group.None?;
    assert GivenLink(f, FieldPriority).Null? <==> f.priority.None?;
    assert GivenLink(f, FieldCreatedAt).Null? <==> f.createdAt.None?;
  }

  /** A link whose check passed, and no other, is stored without a NULL: with both
      keys of the composite key, its priority and its time. The check names the first
      column that would be NULL. */
  lemma {:induction false} CheckedLinkIsComplete(js: JsonCodec, f: LinkFields)
    ensures CheckLink(f).None? <==>
            forall c | LinkKind(c) != UnknownKind :: !Lookup(StoredLink(js, LinkSpec(f)), c).Null?
    ensures var row := StoredLink(js, LinkSpec(f));
            exists k: nat :: FirstNull(row, k) && CheckLink(f) == if k < 4 then Some(Missing(LINK_COLUMNS[k])) else None
  {
    var row := StoredLink(js, LinkSpec(f));
    forall c
      ensures Lookup(row, c) == GivenLink(f, c)
    {
      StoredLinkHolds(js, f, c);
    }
    CheckedIsGiven(f, row);
  }

  lemma {:induction false} SameLink(v: LinkRow, w: LinkRow)
    requires forall c | LinkKind(c) != UnknownKind :: LinkField(v, c) == LinkField(w, c)
    requires forall c :: c !in v.selectValues && c !in w.selectValues
    ensures v == w
  {
    assert LinkField(v, FieldAccountID) == LinkField(w, FieldAccountID) &&
           LinkField(v, FieldGroupID) == LinkField(w, FieldGroupID);
    assert LinkField(v, FieldPriority) == LinkField(w, FieldPriority) &&
           LinkField(v, FieldCreatedAt) == LinkField(w, FieldCreatedAt);
    assert v.selectValues == w.selectValues;
  }

  lemma {:induction false} LinkColumnsNamed(columns: seq<Column>)
    requires forall c :: c in columns <==> c in LINK_COLUMNS
    ensures forall c :: c in columns <==> LinkKind(c) != UnknownKind
  {
    var all := LINK_COLUMNS;
    assert all[0] == FieldAccountID && all[1] == FieldGroupID && all[2] == FieldPriority && all[3] == FieldCreatedAt;
  }
}
