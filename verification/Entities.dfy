/** The entities as heap objects, and the edges eager loading fills in. */
module Entities {
  import opened Prelude
  import opened RowCodec

  class Proxy {
    const ID: int
    constructor (id: int)
      ensures ID == id
    {
      ID := id;
    }
  }

  class Group {
    const ID: int
    const Name: string
    const ModelRouting: Json
    constructor (id: int, name: string, routing: Json)
      ensures ID == id && Name == name && ModelRouting == routing
    {
      ID, Name, ModelRouting := id, name, routing;
    }
  }

  class UsageLog {
    const ID: int
    const AccountID: int
    constructor (id: int, accountID: int)
      ensures ID == id && AccountID == accountID
    {
      ID, AccountID := id, accountID;
    }
  }

  class AdoptionDecision {
    const ID: int
    const IdentityID: Option<int>
    constructor (id: int, identityID: Option<int>)
      ensures ID == id && IdentityID == identityID
    {
      ID, IdentityID := id, identityID;
    }
  }

  /** An auth identity, reduced to its ID and its O2M edge. */
  class AuthIdentity {
    var ID: int
    var AdoptionDecisions: seq<AdoptionDecision>
    constructor (id: int)
      ensures ID == id && AdoptionDecisions == []
    {
      ID, AdoptionDecisions := id, [];
    }
  }

  /** What the `...OrErr` accessors report. */
  datatype EdgeError = NotLoaded(edge: string) | NotFound(entity: string)

  /** What a `*string` field points at. The modelled code never writes a cell after
      making it. */
  class StringCell {
    const value: string
    constructor (value: string)
      ensures this.value == value
    {
      this.value := value;
    }
  }

  /** What a `*int64` field points at. */
  class IntCell {
    const value: int
    constructor (value: int)
      ensures this.value == value
    {
      this.value := value;
    }
  }

  class Account {
    var ID: int
    var CreatedAt: Time
    var UpdatedAt: Time
    var Name: string
    var Notes: StringCell?
    var Credentials: Json
    var ProxyID: IntCell?
    var Schedulable: bool
    var selectValues: map<Column, Cell>

    // Edges. Entry k of `loadedTypes` tells whether edge k was requested:
    // groups, proxy, usage_logs.
    var Groups: seq<Group>
    var Proxy: Proxy?
    var UsageLogs: seq<UsageLog>
    var loadedTypes: seq<bool>

    /** `&Account{}` */
    constructor ()
      ensures Row() == ZERO_ACCOUNT && Notes == null && ProxyID == null
      ensures Groups == [] && Proxy == null && UsageLogs == [] && loadedTypes == [false, false, false]
    {
      ID, CreatedAt, UpdatedAt, Name, Notes := 0, 0, 0, "", null;
      Credentials, ProxyID, Schedulable, selectValues := NilMap, null, false, map[];
      Groups, Proxy, UsageLogs, loadedTypes := [], null, [], [false, false, false];
    }

    /** The scalar fields as a value. */
    function Row(): AccountRow
      reads this`ID, this`CreatedAt, this`UpdatedAt, this`Name, this`Notes
      reads this`Credentials, this`ProxyID, this`Schedulable, this`selectValues
    {
      AccountRow(ID, CreatedAt, UpdatedAt, Name, if Notes == null then None else Some(Notes.value),
                 Credentials, ForeignKey(), Schedulable, selectValues)
    }

    /** The proxy the account refers to. */
    function ForeignKey(): Option<int>
      reads this`ProxyID
    {
      if ProxyID == null then None else Some(ProxyID.value)
    }

    /** Reads the scanned holders into the fields, column by column. A pointer field
        keeps its cell or gets a new one, never one that is in use. */
    method AssignValues(js: JsonCodec, columns: seq<Column>, values: seq<Cell>) returns (err: Option<AssignError>)
      modifies this`ID, this`CreatedAt, this`UpdatedAt, this`Name, this`Notes
      modifies this`Credentials, this`ProxyID, this`Schedulable, this`selectValues
      ensures |values| < |columns| ==> err == Some(LengthMismatch(|values|, |columns|)) && Row() == old(Row())
      ensures |values| >= |columns| ==>
                match AssignAll(js, old(Row()), columns, values)
                case Ok(w) => err == None && Row() == w
                case Err(e) => err == Some(e) && Row() == Reached(js, old(Row()), columns, values)
      ensures Notes == old(Notes) || (Notes != null && fresh(Notes))
      ensures ProxyID == old(ProxyID) || (ProxyID != null && fresh(ProxyID))
    {
      if |values| < |columns| {
        return Some(LengthMismatch(|values|, |columns|));
      }
      for i := 0 to |columns|
        invariant AssignAll(js, old(Row()), columns[..i], values) == Ok(Row())
        invariant Notes == old(Notes) || (Notes != null && fresh(Notes))
        invariant ProxyID == old(ProxyID) || (ProxyID != null && fresh(ProxyID))
      {
        assert columns[..i+1][..i] == columns[..i];
        err := AssignValue(js, columns[i], values[i]);
        if err.Some? {
          AssignAllStops(js, old(Row()), columns, values, i + 1);
          return;
        }
      }
      assert columns[..|columns|] == columns;
      return None;
    }

    /** One turn of the loop. */
    method AssignValue(js: JsonCodec, c: Column, cell: Cell) returns (err: Option<AssignError>)
      modifies this`ID, this`CreatedAt, this`UpdatedAt, this`Name, this`Notes
      modifies this`Credentials, this`ProxyID, this`Schedulable, this`selectValues
      ensures match AssignColumn(js, old(Row()), c, cell)
              case Ok(w) => err == None && Row() == w
              case Err(e) => err == Some(e) && Row() == old(Row())
      ensures Notes == old(Notes) || (Notes != null && fresh(Notes))
      ensures ProxyID == old(ProxyID) || (ProxyID != null && fresh(ProxyID))
    {
      match c {
        case FieldID =>
          if !cell.NullInt64? { return Some(TypeMismatch(c)); }
          ID := cell.int64;
        case FieldCreatedAt =>
          if !cell.NullTime? { return Some(TypeMismatch(c)); }
          if cell.valid { CreatedAt := cell.time; }
        case FieldUpdatedAt =>
          if !cell.NullTime? { return Some(TypeMismatch(c)); }
          if cell.valid { UpdatedAt := cell.time; }
        case FieldName =>
          if !cell.NullString? { return Some(TypeMismatch(c)); }
          if cell.valid { Name := cell.str; }
        case FieldNotes =>
          if !cell.NullString? { return Some(TypeMismatch(c)); }
          if cell.valid { Notes := new StringCell(cell.str); }
        case FieldCredentials =>
          if !cell.Bytes? { return Some(TypeMismatch(c)); }
          if |cell.raw| > 0 {
            var doc := js.unmarshal(cell.raw, Credentials);
            if doc.None? { return Some(Unmarshal(c)); }
            Credentials := doc.value;
          }
        case FieldProxyID =>
          if !cell.NullInt64? { return Some(TypeMismatch(c)); }
          if cell.valid { ProxyID := new IntCell(cell.int64); }
        case FieldSchedulable =>
          if !cell.NullBool? { return Some(TypeMismatch(c)); }
          if cell.valid { Schedulable := cell.flag; }
        case _ =>
          selectValues := selectValues[c := cell];
      }
      return None;
    }

    function GroupsOrErr(): Result<seq<Group>, EdgeError>
      requires |loadedTypes| == 3
      reads this`Groups, this`loadedTypes
    {
      if loadedTypes[0] then Ok(Groups) else Err(NotLoaded("groups"))
    }

    function ProxyOrErr(): Result<Proxy, EdgeError>
      requires |loadedTypes| == 3
      reads this`Proxy, this`loadedTypes
    {
      if Proxy != null then Ok(Proxy)
      else if loadedTypes[1] then Err(NotFound("proxy"))
      else Err(NotLoaded("proxy"))
    }

    function UsageLogsOrErr(): Result<seq<UsageLog>, EdgeError>
      requires |loadedTypes| == 3
      reads this`UsageLogs, this`loadedTypes
    {
      if loadedTypes[2] then Ok(UsageLogs) else Err(NotLoaded("usage_logs"))
    }
  }

  /** Once a prefix fails, the whole list fails with the same error. */
  lemma {:induction false} AssignAllStops(js: JsonCodec, v: AccountRow, columns: seq<Column>, values: seq<Cell>, k: nat)
    requires k <= |columns| <= |values|
    requires AssignAll(js, v, columns[..k], values).Err?
    ensures AssignAll(js, v, columns, values) == AssignAll(js, v, columns[..k], values)
    ensures Reached(js, v, columns, values) == Reached(js, v, columns[..k], values)
    decreases |columns| - k
  {
    if k < |columns| {
      assert columns[..k+1][..k] == columns[..k];
      AssignAllStops(js, v, columns, values, k + 1);
    } else {
      assert columns[..k] == columns;
    }
  }
}
