/** How a database row travels into an entity: the scan holders a column list
    asks for, what scanning puts into them, and what assigning them does. */
module RowCodec {
  import opened Prelude

  /** The column names of the modelled tables. `Other` is any further name, such
      as an expression added by a modifier. */
  datatype Column =
    | FieldID
    | FieldCreatedAt
    | FieldUpdatedAt
    | FieldName
    | FieldNotes
    | FieldCredentials
    | FieldProxyID
    | FieldSchedulable
    | FieldAccountID
    | FieldGroupID
    | FieldIdentityID
    | FieldModelRouting
    | FieldPriority
    | Other(name: string)

  type Time = int

  /** A `map[string]interface{}`, which may be nil. */
  datatype Json = NilMap | Obj(entries: map<string, string>)

  /** `encoding/json` as the entities use it. Unmarshalling starts from the value
      the field already holds, because Go merges into a non-nil map. */
  datatype JsonCodec = JsonCodec(
    marshal: Json -> seq<int>,
    unmarshal: (seq<int>, Json) -> Option<Json>)

  /** What a column of a stored row holds. */
  datatype DbValue = Null | Int(i: int) | Text(s: string) | Timestamp(t: Time) | Bool(b: bool) | Blob(bytes: seq<int>)

  /** The types of holders `scanValues` allocates. */
  datatype Kind = NullInt64Kind | NullStringKind | NullTimeKind | NullBoolKind | BytesKind | UnknownKind

  /** A holder after scanning. */
  datatype Cell =
    | NullInt64(valid: bool, int64: int)
    | NullString(valid: bool, str: string)
    | NullTime(valid: bool, time: Time)
    | NullBool(valid: bool, flag: bool)
    | Bytes(raw: seq<int>)
    | Unknown(any: DbValue)

  function KindOf(c: Cell): Kind {
    match c
    case NullInt64(_, _) => NullInt64Kind
    case NullString(_, _) => NullStringKind
    case NullTime(_, _) => NullTimeKind
    case NullBool(_, _) => NullBoolKind
    case Bytes(_) => BytesKind
    case Unknown(_) => UnknownKind
  }

  /** Whether a stored value can be scanned into a holder of this kind. */
  predicate Fits(k: Kind, v: DbValue) {
    v.Null? ||
    match k
    case NullInt64Kind => v.Int?
    case NullStringKind => v.Text?
    case NullTimeKind => v.Timestamp?
    case NullBoolKind => v.Bool?
    case BytesKind => v.Blob?
    case UnknownKind => true
  }

  /** `rows.Scan` of one value into one holder: NULL leaves the holder invalid and zero. */
  function Scan(k: Kind, v: DbValue): (c: Cell)
    requires Fits(k, v)
    ensures KindOf(c) == k
  {
    match k
    case NullInt64Kind => if v.Null? then NullInt64(false, 0) else NullInt64(true, v.i)
    case NullStringKind => if v.Null? then NullString(false, "") else NullString(true, v.s)
    case NullTimeKind => if v.Null? then NullTime(false, 0) else NullTime(true, v.t)
    case NullBoolKind => if v.Null? then NullBool(false, false) else NullBool(true, v.b)
    case BytesKind => if v.Null? then Bytes([]) else Bytes(v.bytes)
    case UnknownKind => Unknown(v)
  }

  /** A stored row. A column without an entry is NULL. */
  type Row = map<Column, DbValue>

  function Lookup(row: Row, c: Column): DbValue {
    if c in row then row[c] else Null
  }

  datatype AssignError =
    | LengthMismatch(values: nat, columns: nat)
    | TypeMismatch(column: Column)
    | Unmarshal(column: Column)

  // -------------------------------------------------------------------------
  // Account
  // -------------------------------------------------------------------------

  /** The scalar fields of an Account: one of each kind the schema has. */
  datatype AccountRow = AccountRow(
    ID: int,
    CreatedAt: Time,
    UpdatedAt: Time,
    Name: string,
    Notes: Option<string>,
    Credentials: Json,
    ProxyID: Option<int>,
    Schedulable: bool,
    selectValues: map<Column, Cell>)

  const ZERO_ACCOUNT := AccountRow(0, 0, 0, "", None, NilMap, None, false, map[])

  /** The columns of the accounts table. */
  const ACCOUNT_COLUMNS: seq<Column> :=
    [FieldID, FieldCreatedAt, FieldUpdatedAt, FieldName, FieldNotes, FieldCredentials, FieldProxyID, FieldSchedulable]

  /** The holder `scanValues` chooses for a column. */
  function AccountKind(c: Column): Kind {
    match c
    case FieldCredentials => BytesKind
    case FieldSchedulable => NullBoolKind
    case FieldID => NullInt64Kind
    case FieldProxyID => NullInt64Kind
    case FieldName => NullStringKind
    case FieldNotes => NullStringKind
    case FieldCreatedAt => NullTimeKind
    case FieldUpdatedAt => NullTimeKind
    case _ => UnknownKind
  }

  /** One turn of the loop of `assignValues`. */
  function AssignColumn(js: JsonCodec, v: AccountRow, c: Column, cell: Cell): Result<AccountRow, AssignError> {
    match c
    case FieldID =>
      if !cell.NullInt64? then Err(TypeMismatch(c)) else Ok(v.(ID := cell.int64))
    case FieldCreatedAt =>
      if !cell.NullTime? then Err(TypeMismatch(c))
      else if cell.valid then Ok(v.(CreatedAt := cell.time)) else Ok(v)
    case FieldUpdatedAt =>
      if !cell.NullTime? then Err(TypeMismatch(c))
      else if cell.valid then Ok(v.(UpdatedAt := cell.time)) else Ok(v)
    case FieldName =>
      if !cell.NullString? then Err(TypeMismatch(c))
      else if cell.valid then Ok(v.(Name := cell.str)) else Ok(v)
    case FieldNotes =>
      if !cell.NullString? then Err(TypeMismatch(c))
      else if cell.valid then Ok(v.(Notes := Some(cell.str))) else Ok(v)
    case FieldCredentials =>
      if !cell.Bytes? then Err(TypeMismatch(c))
      else if |cell.raw| == 0 then Ok(v)
      else
        (match js.unmarshal(cell.raw, v.Credentials)
         case None => Err(Unmarshal(c))
         case Some(m) => Ok(v.(Credentials := m)))
    case FieldProxyID =>
      if !cell.NullInt64? then Err(TypeMismatch(c))
      else if cell.valid then Ok(v.(ProxyID := Some(cell.int64))) else Ok(v)
    case FieldSchedulable =>
      if !cell.NullBool? then Err(TypeMismatch(c))
      else if cell.valid then Ok(v.(Schedulable := cell.flag)) else Ok(v)
    case _ =>
      Ok(v.(selectValues := v.selectValues[c := cell]))
  }

  /** The loop of `assignValues`, left to right, stopping at the first error. */
  function AssignAll(js: JsonCodec, v: AccountRow, columns: seq<Column>, values: seq<Cell>)
    : Result<AccountRow, AssignError>
    requires |columns| <= |values|
  {
    if columns == [] then Ok(v)
    else
      var k := |columns| - 1;
      match AssignAll(js, v, columns[..k], values)
      case Err(e) => Err(e)
      case Ok(w) => AssignColumn(js, w, columns[k], values[k])
  }

  /** The fields the loop leaves: those after the columns before the first that fails. */
  function Reached(js: JsonCodec, v: AccountRow, columns: seq<Column>, values: seq<Cell>): AccountRow
    requires |columns| <= |values|
  {
    match AssignAll(js, v, columns, values)
    case Ok(w) => w
    case Err(_) => if columns == [] then v else Reached(js, v, columns[..|columns|-1], values)
  }

  /** `values` are holders made by `scanValues` for `columns`, whatever was scanned into them. */
  ghost predicate ScannedFor(columns: seq<Column>, values: seq<Cell>) {
    |columns| <= |values| &&
    forall i :: 0 <= i < |columns| ==> KindOf(values[i]) == AccountKind(columns[i])
  }

  /** Whether a scanned cell changes the field of column `c`: a valid one does,
      and the ID is overwritten even by NULL. */
  predicate Taken(c: Column, cell: Cell) {
    match cell
    case NullInt64(valid, _) => valid || c == FieldID
    case NullString(valid, _) => valid
    case NullTime(valid, _) => valid
    case NullBool(valid, _) => valid
    case Bytes(raw) => |raw| > 0
    case Unknown(_) => true
  }

  /** The last cell of column `c` that its field takes, if there is one. */
  function LastTaken(columns: seq<Column>, values: seq<Cell>, c: Column): Option<Cell>
    requires |columns| <= |values|
  {
    if columns == [] then None
    else
      var k := |columns| - 1;
      if columns[k] == c && (Taken(c, values[k]) || AccountKind(c) == UnknownKind) then Some(values[k])
      else LastTaken(columns[..k], values, c)
  }

  /** The columns with a field of their own that is not a JSON document. */
  predicate Scalar(c: Column) {
    AccountKind(c) != UnknownKind && AccountKind(c) != BytesKind
  }

  /** The field of column `c`, as the value a row would hold. */
  function FieldOf(v: AccountRow, c: Column): DbValue
    requires Scalar(c)
  {
    match c
    case FieldID => Int(v.ID)
    case FieldCreatedAt => Timestamp(v.CreatedAt)
    case FieldUpdatedAt => Timestamp(v.UpdatedAt)
    case FieldName => Text(v.Name)
    case FieldNotes => if v.Notes.None? then Null else Text(v.Notes.value)
    case FieldProxyID => if v.ProxyID.None? then Null else Int(v.ProxyID.value)
    case FieldSchedulable => Bool(v.Schedulable)
  }

  function CellValue(cell: Cell): DbValue {
    match cell
    case NullInt64(_, i) => Int(i)
    case NullString(_, s) => Text(s)
    case NullTime(_, t) => Timestamp(t)
    case NullBool(_, b) => Bool(b)
    case Bytes(raw) => Blob(raw)
    case Unknown(any) => any
  }

  /** `w` is `v` after reading: every field holds the last value its column
      offered and is untouched when there was none; a column the schema does not
      know is kept by name, with the cell scanned last. */
  ghost predicate HoldsLastTaken(v: AccountRow, w: AccountRow, columns: seq<Column>, values: seq<Cell>)
    requires |columns| <= |values|
  {
    (forall c | Scalar(c) ::
       FieldOf(w, c) == match LastTaken(columns, values, c)
                        case None => FieldOf(v, c)
                        case Some(cell) => CellValue(cell)) &&
    (forall c ::
       Selected(w, c) == if AccountKind(c) == UnknownKind && LastTaken(columns, values, c).Some?
                         then LastTaken(columns, values, c) else Selected(v, c))
  }

  function Selected(v: AccountRow, c: Column): Option<Cell> {
    if c in v.selectValues then Some(v.selectValues[c]) else None
  }

  /** The document after merging every non-empty credentials cell into it, left to
      right, if they all parse. */
  function Merged(js: JsonCodec, doc: Json, columns: seq<Column>, values: seq<Cell>): Option<Json>
    requires |columns| <= |values|
  {
    if columns == [] then Some(doc)
    else
      var k := |columns| - 1;
      var before := Merged(js, doc, columns[..k], values);
      match (columns[k], values[k])
      case (FieldCredentials, Bytes(raw)) =>
        if before.None? || raw == [] then before else js.unmarshal(raw, before.value)
      case _ => before
  }

  lemma {:induction false} AssignColumnFrame(js: JsonCodec, w: AccountRow, column: Column, cell: Cell, c: Column)
    requires KindOf(cell) == AccountKind(column)
    requires AssignColumn(js, w, column, cell).Ok?
    ensures var w' := AssignColumn(js, w, column, cell).value;
            && (Scalar(c) ==>
                  FieldOf(w', c) == if c == column && Taken(c, cell) then CellValue(cell) else FieldOf(w, c))
            && Selected(w', c) == if c == column && AccountKind(c) == UnknownKind then Some(cell) else Selected(w, c)
  {
  }

  /** Scanning and assigning agree on every column list, with repetitions and
      unknown columns: the one error left is that a document does not parse, and
      the document of a row is what merging its cells gives. */
  lemma {:induction false} ScanAssignAgree(js: JsonCodec, v: AccountRow, columns: seq<Column>, values: seq<Cell>)
    requires ScannedFor(columns, values)
    ensures match AssignAll(js, v, columns, values)
            case Ok(w) => HoldsLastTaken(v, w, columns, values) &&
                          Merged(js, v.Credentials, columns, values) == Some(w.Credentials)
            case Err(e) => e == Unmarshal(FieldCredentials) && Merged(js, v.Credentials, columns, values).None?
  {
    if columns != [] {
      var k := |columns| - 1;
      ScanAssignAgree(js, v, columns[..k], values);
      assert KindOf(values[k]) == AccountKind(columns[k]);
      var prefix := AssignAll(js, v, columns[..k], values);
      if prefix.Ok? && AssignColumn(js, prefix.value, columns[k], values[k]).Ok? {
        forall c {
          AssignColumnFrame(js, prefix.value, columns[k], values[k], c);
        }
      }
    }
  }

  // -------------------------------------------------------------------------
  // Reading a stored row through a column list
  // -------------------------------------------------------------------------

  /** The stored values have the types of the schema. */
  ghost predicate WellTyped(row: Row) {
    forall c :: Fits(AccountKind(c), Lookup(row, c))
  }

  /** The holders after scanning `row` under the column list. */
  function Fetched(columns: seq<Column>, row: Row): (values: seq<Cell>)
    requires forall c <- columns :: Fits(AccountKind(c), Lookup(row, c))
    ensures ScannedFor(columns, values) && |values| == |columns|
  {
    seq(|columns|, i requires 0 <= i < |columns| => Scan(AccountKind(columns[i]), Lookup(row, columns[i])))
  }

  function DecodeRow(js: JsonCodec, columns: seq<Column>, row: Row): Result<AccountRow, AssignError>
    requires forall c <- columns :: Fits(AccountKind(c), Lookup(row, c))
  {
    AssignAll(js, ZERO_ACCOUNT, columns, Fetched(columns, row))
  }

  lemma {:induction false} LastTakenOfRow(columns: seq<Column>, values: seq<Cell>, row: Row, c: Column)
    requires forall c <- columns :: Fits(AccountKind(c), Lookup(row, c))
    requires |columns| <= |values|
    requires forall i :: 0 <= i < |columns| ==> values[i] == Scan(AccountKind(columns[i]), Lookup(row, columns[i]))
    ensures LastTaken(columns, values, c) ==
            if c in columns && (Taken(c, Scan(AccountKind(c), Lookup(row, c))) || AccountKind(c) == UnknownKind)
            then Some(Scan(AccountKind(c), Lookup(row, c))) else None
  {
    if columns != [] {
      var k := |columns| - 1;
      assert columns == columns[..k] + [columns[k]];
      LastTakenOfRow(columns[..k], values, row, c);
    }
  }

  /** A field of a decoded row depends on the column list only through whether
      its column was selected: order and repetitions do not matter. */
  lemma {:induction false} DecodedField(js: JsonCodec, columns: seq<Column>, row: Row, c: Column)
    requires forall c <- columns :: Fits(AccountKind(c), Lookup(row, c))
    requires Scalar(c) && DecodeRow(js, columns, row).Ok?
    ensures FieldOf(DecodeRow(js, columns, row).value, c) ==
            if c in columns && !Lookup(row, c).Null? then Lookup(row, c) else FieldOf(ZERO_ACCOUNT, c)
  {
    var values := Fetched(columns, row);
    ScanAssignAgree(js, ZERO_ACCOUNT, columns, values);
    LastTakenOfRow(columns, values, row, c);
  }

  /** What a faithful JSON codec guarantees, including when a document is read
      over the value it encodes, as a repeated column does. */
  ghost predicate RoundTrips(js: JsonCodec, m: Json) {
    |js.marshal(m)| > 0 &&
    js.unmarshal(js.marshal(m), NilMap) == Some(m) &&
    js.unmarshal(js.marshal(m), m) == Some(m)
  }

  /** A stored document is read back, whatever else is selected and however often. */
  lemma {:induction false} DecodedDocument(js: JsonCodec, v: AccountRow, columns: seq<Column>, values: seq<Cell>,
                                           m: Json)
    requires ScannedFor(columns, values) && RoundTrips(js, m)
    requires v.Credentials == NilMap
    requires forall i :: 0 <= i < |columns| && columns[i] == FieldCredentials ==> values[i] == Bytes(js.marshal(m))
    ensures AssignAll(js, v, columns, values).Ok?
    ensures AssignAll(js, v, columns, values).value.Credentials == if FieldCredentials in columns then m else NilMap
  {
    if columns != [] {
      var k := |columns| - 1;
      assert columns == columns[..k] + [columns[k]];
      DecodedDocument(js, v, columns[..k], values, m);
      assert KindOf(values[k]) == AccountKind(columns[k]);
    }
  }

  /** A document column that is selected once more is merged into what was read
      before, unless it is empty. */
  lemma {:induction false} RepeatedDocument(js: JsonCodec, v: AccountRow, columns: seq<Column>, values: seq<Cell>,
                                            raw: seq<int>)
    requires |columns| == |values| && AssignAll(js, v, columns, values).Ok?
    ensures var before := AssignAll(js, v, columns, values).value;
            AssignAll(js, v, columns + [FieldCredentials], values + [Bytes(raw)]) ==
            if raw == [] then Ok(before)
            else match js.unmarshal(raw, before.Credentials)
                 case None => Err(Unmarshal(FieldCredentials))
                 case Some(m) => Ok(before.(Credentials := m))
  {
    assert (columns + [FieldCredentials])[..|columns|] == columns;
    SameValues(js, v, columns, values, values + [Bytes(raw)]);
  }

  lemma {:induction false} SameValues(js: JsonCodec, v: AccountRow, columns: seq<Column>, values: seq<Cell>,
                                      others: seq<Cell>)
    requires |columns| <= |values| && |columns| <= |others|
    requires forall i :: 0 <= i < |columns| ==> values[i] == others[i]
    ensures AssignAll(js, v, columns, values) == AssignAll(js, v, columns, others)
  {
    if columns != [] {
      SameValues(js, v, columns[..|columns|-1], values, others);
    }
  }
}
