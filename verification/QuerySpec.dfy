/** The column list a query selects. */
module QuerySpec {
  import opened Prelude
  import opened RowCodec

  /** `AddColumnOnce` of a node spec and `AppendFieldOnce` of a query context. */
  function AddOnce(columns: seq<Column>, c: Column): (r: seq<Column>)
    ensures c in r && columns <= r
    ensures forall x <- r :: x in columns || x == c
    ensures NoDup(columns) ==> NoDup(r)
  {
    if c in columns then columns else columns + [c]
  }

  function AddAllOnce(columns: seq<Column>, fks: seq<Column>): seq<Column> {
    if fks == [] then columns
    else AddOnce(AddAllOnce(columns, fks[..|fks|-1]), fks[|fks|-1])
  }

  function WithoutID(fields: seq<Column>): seq<Column> {
    if fields == [] then []
    else WithoutID(fields[..|fields|-1]) + if fields[|fields|-1] == FieldID then [] else [fields[|fields|-1]]
  }

  /** The columns of a query on a table with columns `all`. `fields` is what
      Select was given, `fks` the foreign keys of the requested M2O edges, and
      `hasID` tells an entity with an ID column from one with a composite key. */
  function ColumnsOf(all: seq<Column>, hasID: bool, fields: seq<Column>, fks: seq<Column>): seq<Column> {
    if fields == [] then all
    else AddAllOnce(if hasID then [FieldID] + WithoutID(fields) else fields, fks)
  }

  method AddForeignKeys(base: seq<Column>, fks: seq<Column>) returns (columns: seq<Column>)
    ensures columns == AddAllOnce(base, fks)
  {
    columns := base;
    for i := 0 to |fks|
      invariant columns == AddAllOnce(base, fks[..i])
    {
      assert fks[..i+1][..i] == fks[..i];
      columns := AddOnce(columns, fks[i]);
    }
    assert fks[..|fks|] == fks;
  }

  /** `querySpec` of an entity with an ID, as far as it fills `_spec.Node.Columns`. */
  method BuildColumns(all: seq<Column>, fields: seq<Column>, fks: seq<Column>) returns (columns: seq<Column>)
    ensures columns == ColumnsOf(all, true, fields, fks)
  {
    columns := all;
    if |fields| > 0 {
      columns := [FieldID];
      for i := 0 to |fields|
        invariant columns == [FieldID] + WithoutID(fields[..i])
      {
        assert fields[..i+1][..i] == fields[..i];
        if fields[i] != FieldID {
          columns := columns + [fields[i]];
        }
      }
      assert fields[..|fields|] == fields;
      columns := AddForeignKeys(columns, fks);
    }
  }

  /** The same of an entity with a composite key, which has no ID column. */
  method BuildCompositeColumns(all: seq<Column>, fields: seq<Column>, fks: seq<Column>) returns (columns: seq<Column>)
    ensures columns == ColumnsOf(all, false, fields, fks)
  {
    columns := all;
    if |fields| > 0 {
      columns := [];
      for i := 0 to |fields|
        invariant columns == fields[..i]
      {
        columns := columns + [fields[i]];
      }
      assert fields[..|fields|] == fields;
      columns := AddForeignKeys(columns, fks);
    }
  }

  lemma {:induction false} AddAllOnceMembers(columns: seq<Column>, fks: seq<Column>)
    ensures columns <= AddAllOnce(columns, fks)
    ensures forall c :: c in AddAllOnce(columns, fks) <==> c in columns || c in fks
    ensures forall j :: |columns| <= j < |AddAllOnce(columns, fks)| ==> AddAllOnce(columns, fks)[j] !in columns
  {
    if fks != [] {
      AddAllOnceMembers(columns, fks[..|fks|-1]);
      assert fks == fks[..|fks|-1] + [fks[|fks|-1]];
    }
  }

  lemma {:induction false} WithoutIDMembers(fields: seq<Column>)
    ensures forall c :: c in WithoutID(fields) <==> c in fields && c != FieldID
  {
    if fields != [] {
      WithoutIDMembers(fields[..|fields|-1]);
      assert fields == fields[..|fields|-1] + [fields[|fields|-1]];
    }
  }

  /** Without a selection the columns are those of the table, in its order. With one
      they are exactly the selected ones, the ID where the entity has one, and the
      foreign keys the requested edges need; the ID comes first and only once. */
  lemma {:induction false} ProjectionKeepsKeys(all: seq<Column>, hasID: bool, fields: seq<Column>, fks: seq<Column>)
    requires FieldID !in fks
    ensures fields == [] ==> ColumnsOf(all, hasID, fields, fks) == all
    ensures var columns := ColumnsOf(all, hasID, fields, fks);
            fields != [] ==>
            && (forall c :: c in columns <==> c in fields || c in fks || (hasID && c == FieldID))
            && (hasID ==> columns != [] && columns[0] == FieldID &&
                          forall j :: 0 < j < |columns| ==> columns[j] != FieldID)
  {
    WithoutIDMembers(fields);
    var base := if hasID then [FieldID] + WithoutID(fields) else fields;
    AddAllOnceMembers(base, fks);
    var columns := ColumnsOf(all, hasID, fields, fks);
    if fields != [] && hasID {
      forall j | 0 < j < |columns|
        ensures columns[j] != FieldID
      {
        if j < |base| {
          assert columns[j] == base[j] == WithoutID(fields)[j-1];
          assert WithoutID(fields)[j-1] in WithoutID(fields);
        }
      }
    }
  }

  /** `prepareQuery`: the first selected field that is not a column of the table. */
  function InvalidField(all: seq<Column>, fields: seq<Column>): (r: Option<Column>)
    ensures r.None? <==> forall c <- fields :: c in all
    ensures r.Some? ==> r.value in fields && r.value !in all
    ensures r.Some? ==> forall j :: 0 <= j < FirstIndex(fields, r.value) ==> fields[j] in all
  {
    if fields == [] then None
    else if fields[0] !in all then Some(fields[0])
    else InvalidField(all, fields[1..])
  }
}
