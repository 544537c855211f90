/** The account create builder: defaults, checks and the spec it writes. */
module AccountCreating {
  import opened Prelude
  import opened RowCodec
  import opened Entities

  /** What a create mutation holds: a field is None until it is set. */
  datatype Fields = Fields(
    createdAt: Option<Time>,
    updatedAt: Option<Time>,
    name: Option<string>,
    notes: Option<string>,
    credentials: Option<Json>,
    schedulable: Option<bool>,
    groups: set<int>,
    proxy: Option<int>,
    usageLogs: set<int>)

  /** The package variables the runtime package fills in. A default function is
      None while it is uninitialised, and otherwise the value it returns. */
  datatype Runtime = Runtime(
    defaultCreatedAt: Option<Time>,
    defaultUpdatedAt: Option<Time>,
    defaultCredentials: Option<Json>,
    defaultSchedulable: bool,
    nameValid: string -> bool)

  datatype CreateError =
    | Uninitialized(c: Column)
    | Missing(c: Column)
    | Rejected(c: Column)
    | InsertFailed(msg: string)
    | HookFailed(msg: string)

  // ------------------------------------------------------------------------
  // defaults and check
  // ------------------------------------------------------------------------

  /** `defaults`: the fields it leaves and the error it returns. */
  function Defaulted(rt: Runtime, f: Fields): (Fields, Option<CreateError>) {
    if f.createdAt.None? && rt.defaultCreatedAt.None? then (f, Some(Uninitialized(FieldCreatedAt)))
    else
      var f := if f.createdAt.None? then f.(createdAt := rt.defaultCreatedAt) else f;
      if f.updatedAt.None? && rt.defaultUpdatedAt.None? then (f, Some(Uninitialized(FieldUpdatedAt)))
      else
        var f := if f.updatedAt.None? then f.(updatedAt := rt.defaultUpdatedAt) else f;
        if f.credentials.None? && rt.defaultCredentials.None? then (f, Some(Uninitialized(FieldCredentials)))
        else
          var f := if f.credentials.None? then f.(credentials := rt.defaultCredentials) else f;
          (if f.schedulable.None? then f.(schedulable := Some(rt.defaultSchedulable)) else f, None)
  }

  /** `check`: the first complaint. */
  function Check(rt: Runtime, f: Fields): Option<CreateError> {
    if f.createdAt.None? then Some(Missing(FieldCreatedAt))
    else if f.updatedAt.None? then Some(Missing(FieldUpdatedAt))
    else if f.name.None? then Some(Missing(FieldName))
    else if !rt.nameValid(f.name.value) then Some(Rejected(FieldName))
    else if f.credentials.None? then Some(Missing(FieldCredentials))
    else if f.schedulable.None? then Some(Missing(FieldSchedulable))
    else None
  }

  /** `g` has every value `f` has, and possibly more. */
  ghost predicate Extends(f: Fields, g: Fields) {
    && (f.createdAt.Some? ==> g.createdAt == f.createdAt)
    && (f.updatedAt.Some? ==> g.updatedAt == f.updatedAt)
    && (f.credentials.Some? ==> g.credentials == f.credentials)
    && (f.schedulable.Some? ==> g.schedulable == f.schedulable)
    && g.name == f.name && g.notes == f.notes
    && g.groups == f.groups && g.proxy == f.proxy && g.usageLogs == f.usageLogs
  }

  /** Every field the schema requires is set. */
  predicate Complete(f: Fields) {
    f.createdAt.Some? && f.updatedAt.Some? && f.name.Some? && f.credentials.Some? && f.schedulable.Some?
  }

  /** `defaults` fails exactly when an unset field has no default function, naming the
      first such field, and fills in exactly the unset fields before it: all of them
      when it does not fail. */
  lemma {:induction false} DefaultsMeaning(rt: Runtime, f: Fields)
    ensures var (g, err) := Defaulted(rt, f);
            var createdAt := OrElse(f.createdAt, rt.defaultCreatedAt);
            var updatedAt := OrElse(f.updatedAt, rt.defaultUpdatedAt);
            var credentials := OrElse(f.credentials, rt.defaultCredentials);
            && (err == Some(Uninitialized(FieldCreatedAt)) <==> createdAt.None?)
            && (err == Some(Uninitialized(FieldUpdatedAt)) <==> createdAt.Some? && updatedAt.None?)
            && (err == Some(Uninitialized(FieldCredentials)) <==>
                  createdAt.Some? && updatedAt.Some? && credentials.None?)
            && (err == None <==> createdAt.Some? && updatedAt.Some? && credentials.Some?)
            && g == f.(createdAt := createdAt,
                       updatedAt := if createdAt.Some? then updatedAt else f.updatedAt,
                       credentials := if createdAt.Some? && updatedAt.Some? then credentials else f.credentials,
                       schedulable := if err.None? then OrElse(f.schedulable, Some(rt.defaultSchedulable))
                                      else f.schedulable)
  {
  }

  /** `defaults` never overwrites a value, running it again changes nothing, and
      when it fails, `check` fails too: discarding its error loses nothing. */
  lemma {:induction false} DefaultsAreSafe(rt: Runtime, f: Fields)
    ensures var (g, err) := Defaulted(rt, f);
            && Extends(f, g)
            && Defaulted(rt, g) == (g, err)
            && (err.Some? ==> Check(rt, g).Some?)
            && (err.None? ==> Complete(g.(name := Some(""))))
  {
  }

  /** The fields the schema requires, in the order `check` looks at them. */
  const REQUIRED: seq<Column> := [FieldCreatedAt, FieldUpdatedAt, FieldName, FieldCredentials, FieldSchedulable]

  /** Passing `check` is having every required field and a valid name. The complaint is
      about the first field that is missing or, looked at right after it is found to be
      there, about an invalid name. */
  lemma {:induction false} CheckMeaning(rt: Runtime, f: Fields)
    ensures match Check(rt, f)
            case None => Complete(f) && rt.nameValid(f.name.value)
            case Some(Missing(c)) =>
              && c in REQUIRED && Given(f, c).None?
              && (forall j :: 0 <= j < FirstIndex(REQUIRED, c) ==> Given(f, REQUIRED[j]).Some?)
              && (f.name.Some? && FirstIndex(REQUIRED, c) > 2 ==> rt.nameValid(f.name.value))
            case Some(Rejected(c)) =>
              c == FieldName && f.createdAt.Some? && f.updatedAt.Some? && f.name.Some? && !rt.nameValid(f.name.value)
            case Some(_) => false
  {
  }

  // ------------------------------------------------------------------------
  // createSpec
  // ------------------------------------------------------------------------

  datatype FieldValue = TimeValue(t: Time) | StringValue(s: string) | JsonValue(j: Json)
      | BoolValue(b: bool) | IntValue(i: int)

  datatype FieldSpec = FieldSpec(column: Column, value: FieldValue)

  /** The order in which a Go map yields the targets of an edge is unspecified,
      so the targets are a set. */
  datatype EdgeSpec =
    | GroupsEdge(targets: set<int>)
    | M2OEdge(column: Column, target: int)
    | UsageLogsEdge(targets: set<int>)

  datatype CreateSpec = CreateSpec(fields: seq<FieldSpec>, edges: seq<EdgeSpec>)

  /** The value a mutation gives a column, if it gives one. */
  function Given(f: Fields, c: Column): Option<FieldValue> {
    match c
    case FieldCreatedAt => if f.createdAt.None? then None else Some(TimeValue(f.createdAt.value))
    case FieldUpdatedAt => if f.updatedAt.None? then None else Some(TimeValue(f.updatedAt.value))
    case FieldName => if f.name.None? then None else Some(StringValue(f.name.value))
    case FieldNotes => if f.notes.None? then None else Some(StringValue(f.notes.value))
    case FieldCredentials => if f.credentials.None? then None else Some(JsonValue(f.credentials.value))
    case FieldSchedulable => if f.schedulable.None? then None else Some(BoolValue(f.schedulable.value))
    case _ => None
  }

  /** `SetField` of a value, when there is one. */
  function SetIf(fields: seq<FieldSpec>, c: Column, v: Option<FieldValue>): seq<FieldSpec> {
    if v.None? then fields else fields + [FieldSpec(c, v.value)]
  }

  function FirstFields(f: Fields): seq<FieldSpec> {
    var s := SetIf([], FieldCreatedAt, Given(f, FieldCreatedAt));
    var s := SetIf(s, FieldUpdatedAt, Given(f, FieldUpdatedAt));
    SetIf(s, FieldName, Given(f, FieldName))
  }

  function SpecFields(f: Fields): seq<FieldSpec> {
    var s := SetIf(FirstFields(f), FieldNotes, Given(f, FieldNotes));
    var s := SetIf(s, FieldCredentials, Given(f, FieldCredentials));
    SetIf(s, FieldSchedulable, Given(f, FieldSchedulable))
  }

  /** An edge spec, when there is one. */
  function AddIf(edges: seq<EdgeSpec>, e: Option<EdgeSpec>): seq<EdgeSpec> {
    if e.None? then edges else edges + [e.value]
  }

  /** The M2O edge to a target, when there is one. */
  function ToOne(c: Column, target: Option<int>): Option<EdgeSpec> {
    if target.None? then None else Some(M2OEdge(c, target.value))
  }

  function SpecEdges(f: Fields): seq<EdgeSpec> {
    var e := AddIf([], if f.groups == {} then None else Some(GroupsEdge(f.groups)));
    var e := AddIf(e, ToOne(FieldProxyID, f.proxy));
    AddIf(e, if f.usageLogs == {} then None else Some(UsageLogsEdge(f.usageLogs)))
  }

  function SpecOf(f: Fields): CreateSpec {
    CreateSpec(SpecFields(f), SpecEdges(f))
  }

  /** Every edge the mutation has targets for is in the spec, with these targets,
      once; no other edge is. */
  lemma {:induction false} SpecEdgesHold(f: Fields)
    ensures NoDup(SpecEdges(f))
    ensures forall e :: e in SpecEdges(f) <==>
              match e
              case GroupsEdge(targets) => targets == f.groups && f.groups != {}
              case M2OEdge(column, target) => column == FieldProxyID && f.proxy == Some(target)
              case UsageLogsEdge(targets) => targets == f.usageLogs && f.usageLogs != {}
  {
  }

  /** The node the builder returns next to its spec, before the ID is known. */
  function NodeOf(f: Fields): AccountRow {
    AccountRow(
      0,
      if f.createdAt.None? then 0 else f.createdAt.value,
      if f.updatedAt.None? then 0 else f.updatedAt.value,
      if f.name.None? then "" else f.name.value,
      f.notes,
      if f.credentials.None? then NilMap else f.credentials.value,
      f.proxy,
      if f.schedulable.None? then false else f.schedulable.value,
      map[])
  }

  /** `createSpec`: the spec grows field by field while the node is filled in. */
  method BuildSpec(f: Fields) returns (node: Account, spec: CreateSpec)
    ensures fresh(node) && node.Row() == NodeOf(f) && (node.Notes != null ==> fresh(node.Notes))
    ensures node.ProxyID != null ==> fresh(node.ProxyID)
    ensures spec == SpecOf(f)
  {
    node := new Account();
    var fields := SetFields(node, f);
    var edges: seq<EdgeSpec> := [];
    if f.groups != {} {
      edges := edges + [GroupsEdge(f.groups)];
    }
    if f.proxy.Some? {
      edges := edges + [M2OEdge(FieldProxyID, f.proxy.value)];
      node.ProxyID := new IntCell(f.proxy.value);
    }
    if f.usageLogs != {} {
      edges := edges + [UsageLogsEdge(f.usageLogs)];
    }
    spec := CreateSpec(fields, edges);
  }

  /** The part of `createSpec` that handles the plain fields. */
  method SetFields(node: Account, f: Fields) returns (fields: seq<FieldSpec>)
    requires node.Row() == ZERO_ACCOUNT && node.Notes == null && node.ProxyID == null
    modifies node`CreatedAt, node`UpdatedAt, node`Name, node`Notes, node`Credentials, node`Schedulable
    ensures node.Notes != null ==> fresh(node.Notes)
    ensures node.Row() == NodeOf(f).(ProxyID := None)
    ensures fields == SpecFields(f)
  {
    fields := SetFirstFields(node, f);
    if f.notes.Some? {
      fields := fields + [FieldSpec(FieldNotes, StringValue(f.notes.value))];
      node.Notes := new StringCell(f.notes.value);
    }
    if f.credentials.Some? {
      fields := fields + [FieldSpec(FieldCredentials, JsonValue(f.credentials.value))];
      node.Credentials := f.credentials.value;
    }
    if f.schedulable.Some? {
      fields := fields + [FieldSpec(FieldSchedulable, BoolValue(f.schedulable.value))];
      node.Schedulable := f.schedulable.value;
    }
  }

  method SetFirstFields(node: Account, f: Fields) returns (fields: seq<FieldSpec>)
    requires node.Row() == ZERO_ACCOUNT && node.Notes == null && node.ProxyID == null
    modifies node`CreatedAt, node`UpdatedAt, node`Name
    ensures node.Row() == NodeOf(f).(ProxyID := None, Notes := None, Credentials := NilMap, Schedulable := false)
    ensures fields == FirstFields(f)
  {
    fields := [];
    if f.createdAt.Some? {
      fields := fields + [FieldSpec(FieldCreatedAt, TimeValue(f.createdAt.value))];
      node.CreatedAt := f.createdAt.value;
    }
    if f.updatedAt.Some? {
      fields := fields + [FieldSpec(FieldUpdatedAt, TimeValue(f.updatedAt.value))];
      node.UpdatedAt := f.updatedAt.value;
    }
    if f.name.Some? {
      fields := fields + [FieldSpec(FieldName, StringValue(f.name.value))];
      node.Name := f.name.value;
    }
  }

  // ------------------------------------------------------------------------
  // Create, then read
  // ------------------------------------------------------------------------

  function Encode(js: JsonCodec, v: FieldValue): DbValue {
    match v
    case TimeValue(t) => Timestamp(t)
    case StringValue(s) => Text(s)
    case JsonValue(j) => Blob(js.marshal(j))
    case BoolValue(b) => Bool(b)
    case IntValue(i) => Int(i)
  }

  /** What the fields of a spec give a column: the last value set for it. */
  function FieldIn(fields: seq<FieldSpec>, c: Column): (v: Option<FieldValue>)
    ensures v.Some? ==> c in FieldColumns(fields)
  {
    if fields == [] then None
    else
      var last := fields[|fields|-1];
      if last.column == c then Some(last.value) else FieldIn(fields[..|fields|-1], c)
  }

  function FieldColumns(fields: seq<FieldSpec>): set<Column> {
    set s <- fields :: s.column
  }

  /** The same of the M2O edges, which are stored in a column of the node's own row. */
  function EdgeIn(edges: seq<EdgeSpec>, c: Column): (target: Option<int>)
    ensures target.Some? ==> c in EdgeColumns(edges)
  {
    if edges == [] then None
    else
      match edges[|edges|-1]
      case M2OEdge(column, target) => if column == c then Some(target) else EdgeIn(edges[..|edges|-1], c)
      case _ => EdgeIn(edges[..|edges|-1], c)
  }

  function EdgeColumns(edges: seq<EdgeSpec>): set<Column> {
    set e <- edges | e.M2OEdge? :: e.column
  }

  /** What inserting a spec stores in a column: the target of its edge, else its
      field, else the ID if the entity has one. */
  function ColumnValue(js: JsonCodec, id: Option<int>, spec: CreateSpec, c: Column): Option<DbValue> {
    if EdgeIn(spec.edges, c).Some? then Some(Int(EdgeIn(spec.edges, c).value))
    else if FieldIn(spec.fields, c).Some? then Some(Encode(js, FieldIn(spec.fields, c).value))
    else if c == FieldID && id.Some? then Some(Int(id.value))
    else None
  }

  /** The row inserting a spec stores. */
  function StoredRow(js: JsonCodec, id: Option<int>, spec: CreateSpec): Row {
    map c |
      c in {FieldID} + FieldColumns(spec.fields) + EdgeColumns(spec.edges) && ColumnValue(js, id, spec, c).Some? ::
      ColumnValue(js, id, spec, c).value
  }

  lemma {:induction false} StoredAt(js: JsonCodec, id: Option<int>, spec: CreateSpec, c: Column)
    ensures Lookup(StoredRow(js, id, spec), c) ==
            if ColumnValue(js, id, spec, c).None? then Null else ColumnValue(js, id, spec, c).value
  {
  }

  /** The value the row must hold for each column. */
  function Expected(js: JsonCodec, id: int, f: Fields, c: Column): DbValue {
    if c == FieldID then Int(id)
    else if c == FieldProxyID then (if f.proxy.None? then Null else Int(f.proxy.value))
    else if Given(f, c).None? then Null
    else Encode(js, Given(f, c).value)
  }

  lemma {:induction false} SetIfAt(fields: seq<FieldSpec>, c: Column, v: Option<FieldValue>, x: Column)
    ensures FieldIn(SetIf(fields, c, v), x) == if x == c && v.Some? then v else FieldIn(fields, x)
  {
    if v.Some? {
      assert SetIf(fields, c, v)[..|fields|] == fields;
    }
  }

  lemma {:induction false} AddIfAt(edges: seq<EdgeSpec>, e: Option<EdgeSpec>, x: Column)
    ensures EdgeIn(AddIf(edges, e), x) ==
            match e
            case Some(M2OEdge(c, target)) => if x == c then Some(target) else EdgeIn(edges, x)
            case _ => EdgeIn(edges, x)
  {
    if e.Some? {
      assert AddIf(edges, e)[..|edges|] == edges;
    }
  }

  lemma {:induction false} FirstFieldsHold(f: Fields, c: Column)
    ensures FieldIn(FirstFields(f), c) == if c in {FieldCreatedAt, FieldUpdatedAt, FieldName} then Given(f, c) else None
  {
    var s1 := SetIf([], FieldCreatedAt, Given(f, FieldCreatedAt));
    var s2 := SetIf(s1, FieldUpdatedAt, Given(f, FieldUpdatedAt));
    SetIfAt([], FieldCreatedAt, Given(f, FieldCreatedAt), c);
    SetIfAt(s1, FieldUpdatedAt, Given(f, FieldUpdatedAt), c);
    SetIfAt(s2, FieldName, Given(f, FieldName), c);
  }

  /** The fields of the spec give every column what the mutation gives it. */
  lemma {:induction false} SpecFieldsHold(f: Fields, c: Column)
    ensures FieldIn(SpecFields(f), c) == Given(f, c)
  {
    FirstFieldsHold(f, c);
    var s3 := FirstFields(f);
    var s4 := SetIf(s3, FieldNotes, Given(f, FieldNotes));
    var s5 := SetIf(s4, FieldCredentials, Given(f, FieldCredentials));
    SetIfAt(s3, FieldNotes, Given(f, FieldNotes), c);
    SetIfAt(s4, FieldCredentials, Given(f, FieldCredentials), c);
    SetIfAt(s5, FieldSchedulable, Given(f, FieldSchedulable), c);
  }

  /** The one column an edge writes is that of the proxy. */
  lemma {:induction false} EdgeColumnHolds(f: Fields, c: Column)
    ensures EdgeIn(SpecEdges(f), c) == if c == FieldProxyID then f.proxy else None
  {
    var groups := if f.groups == {} then None else Some(GroupsEdge(f.groups));
    var logs := if f.usageLogs == {} then None else Some(UsageLogsEdge(f.usageLogs));
    AddIfAt([], groups, c);
    AddIfAt(AddIf([], groups), ToOne(FieldProxyID, f.proxy), c);
    AddIfAt(AddIf(AddIf([], groups), ToOne(FieldProxyID, f.proxy)), logs, c);
  }

  lemma {:induction false} ColumnHolds(js: JsonCodec, id: int, f: Fields, c: Column)
    ensures Lookup(StoredRow(js, Some(id), SpecOf(f)), c) == Expected(js, id, f, c)
  {
    StoredAt(js, Some(id), SpecOf(f), c);
    SpecFieldsHold(f, c);
    EdgeColumnHolds(f, c);
  }

  /** The stored row holds exactly what the mutation gave. */
  lemma {:induction false} StoredRowHolds(js: JsonCodec, id: int, f: Fields)
    ensures forall c :: Lookup(StoredRow(js, Some(id), SpecOf(f)), c) == Expected(js, id, f, c)
  {
    forall c
      ensures Lookup(StoredRow(js, Some(id), SpecOf(f)), c) == Expected(js, id, f, c)
    {
      ColumnHolds(js, id, f, c);
    }
  }

  lemma {:induction false} AllColumnsNamed(columns: seq<Column>)
    requires forall c :: c in columns <==> c in ACCOUNT_COLUMNS
    ensures forall c :: c in columns <==> AccountKind(c) != UnknownKind
  {
    var all := ACCOUNT_COLUMNS;
    assert all[0] == FieldID && all[1] == FieldCreatedAt && all[2] == FieldUpdatedAt && all[3] == FieldName;
    assert all[4] == FieldNotes && all[5] == FieldCredentials && all[6] == FieldProxyID && all[7] == FieldSchedulable;
  }

  /** Rows are equal when their columns are. */
  lemma {:induction false} SameRow(v: AccountRow, w: AccountRow)
    requires forall c | Scalar(c) :: FieldOf(v, c) == FieldOf(w, c)
    requires v.Credentials == w.Credentials && forall c :: Selected(v, c) == Selected(w, c)
    ensures v == w
  {
    assert FieldOf(v, FieldID) == FieldOf(w, FieldID) && FieldOf(v, FieldCreatedAt) == FieldOf(w, FieldCreatedAt);
    assert FieldOf(v, FieldUpdatedAt) == FieldOf(w, FieldUpdatedAt) && FieldOf(v, FieldName) == FieldOf(w, FieldName);
    assert FieldOf(v, FieldNotes) == FieldOf(w, FieldNotes) && FieldOf(v, FieldProxyID) == FieldOf(w, FieldProxyID);
    assert FieldOf(v, FieldSchedulable) == FieldOf(w, FieldSchedulable);
    assert v.selectValues == w.selectValues by {
      assert forall c :: c in v.selectValues <==> Selected(v, c) != None;
      assert forall c :: c in w.selectValues <==> Selected(w, c) != None;
    }
  }

  lemma {:induction false} NothingSelected(js: JsonCodec, columns: seq<Column>, row: Row, w: AccountRow)
    requires WellTyped(row) && (forall c :: c in columns <==> AccountKind(c) != UnknownKind)
    requires DecodeRow(js, columns, row) == Ok(w)
    ensures forall c :: Selected(w, c) == None
  {
    var values := Fetched(columns, row);
    ScanAssignAgree(js, ZERO_ACCOUNT, columns, values);
    forall c | AccountKind(c) == UnknownKind
      ensures LastTaken(columns, values, c) == None
    {
      LastTakenOfRow(columns, values, row, c);
    }
  }

  lemma {:induction false} ExpectedFits(js: JsonCodec, id: int, f: Fields, c: Column)
    ensures Fits(AccountKind(c), Expected(js, id, f, c))
  {
  }

  lemma {:induction false} StoredRowTyped(js: JsonCodec, id: int, f: Fields)
    ensures WellTyped(StoredRow(js, Some(id), SpecOf(f)))
  {
    forall c
      ensures Fits(AccountKind(c), Lookup(StoredRow(js, Some(id), SpecOf(f)), c))
    {
      ColumnHolds(js, id, f, c);
      ExpectedFits(js, id, f, c);
    }
  }

  /** Create, then read: whatever the mutation holds, and for every column list
      that names the table's columns in any order and number, the row written by
      its spec reads back as the node `createSpec` returned, with its ID. */
  lemma {:induction false} CreateReadRoundTrip(js: JsonCodec, f: Fields, id: int, columns: seq<Column>)
    requires f.credentials.Some? ==> RoundTrips(js, f.credentials.value)
    requires forall c :: c in columns <==> c in ACCOUNT_COLUMNS
    ensures var row := StoredRow(js, Some(id), SpecOf(f));
            WellTyped(row) && DecodeRow(js, columns, row) == Ok(NodeOf(f).(ID := id))
  {
    var row := StoredRow(js, Some(id), SpecOf(f));
    StoredRowHolds(js, id, f);
    StoredRowTyped(js, id, f);
    AllColumnsNamed(columns);
    ReadsBack(js, f, id, columns, row);
  }

  /** A row that holds what the mutation gives reads back as its node. */
  lemma {:induction false} ReadsBack(js: JsonCodec, f: Fields, id: int, columns: seq<Column>, row: Row)
    requires f.credentials.Some? ==> RoundTrips(js, f.credentials.value)
    requires forall c :: c in columns <==> AccountKind(c) != UnknownKind
    requires WellTyped(row) && forall c :: Lookup(row, c) == Expected(js, id, f, c)
    ensures DecodeRow(js, columns, row) == Ok(NodeOf(f).(ID := id))
  {
    DocumentRead(js, f, columns, row, Fetched(columns, row));
    var w := DecodeRow(js, columns, row).value;
    FieldsRead(js, f, id, columns, row, w);
    NothingSelected(js, columns, row, w);
    SameRow(w, NodeOf(f).(ID := id));
  }

  lemma {:induction false} FieldsRead(js: JsonCodec, f: Fields, id: int, columns: seq<Column>, row: Row, w: AccountRow)
    requires WellTyped(row) && (forall c :: Lookup(row, c) == Expected(js, id, f, c))
    requires forall c :: c in columns <==> AccountKind(c) != UnknownKind
    requires DecodeRow(js, columns, row) == Ok(w)
    ensures forall c | Scalar(c) :: FieldOf(w, c) == FieldOf(NodeOf(f).(ID := id), c)
  {
    forall c | Scalar(c)
      ensures FieldOf(w, c) == FieldOf(NodeOf(f).(ID := id), c)
    {
      DecodedField(js, columns, row, c);
    }
  }

  lemma {:induction false} DocumentRead(js: JsonCodec, f: Fields, columns: seq<Column>, row: Row, values: seq<Cell>)
    requires f.credentials.Some? ==> RoundTrips(js, f.credentials.value)
    requires WellTyped(row) && values == Fetched(columns, row) && FieldCredentials in columns
    requires Lookup(row, FieldCredentials) ==
             if f.credentials.None? then Null else Blob(js.marshal(f.credentials.value))
    ensures AssignAll(js, ZERO_ACCOUNT, columns, values).Ok?
    ensures AssignAll(js, ZERO_ACCOUNT, columns, values).value.Credentials == NodeOf(f).Credentials
  {
    if f.credentials.Some? {
      DecodedDocument(js, ZERO_ACCOUNT, columns, values, f.credentials.value);
    } else {
      NoDocument(js, ZERO_ACCOUNT, columns, values);
    }
  }

  lemma {:induction false} NoDocument(js: JsonCodec, v: AccountRow, columns: seq<Column>, values: seq<Cell>)
    requires ScannedFor(columns, values)
    requires forall i :: 0 <= i < |columns| && columns[i] == FieldCredentials ==> values[i] == Bytes([])
    ensures AssignAll(js, v, columns, values).Ok?
    ensures AssignAll(js, v, columns, values).value.Credentials == v.Credentials
  {
    if columns != [] {
      var k := |columns| - 1;
      NoDocument(js, v, columns[..k], values);
      assert KindOf(values[k]) == AccountKind(columns[k]);
    }
  }
}
