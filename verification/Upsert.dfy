/** Upserts and updates of accounts, and why `created_at` never changes once a
    row is stored. */
module Upserting {
  import opened Prelude
  import opened RowCodec
  import opened AccountCreating

  // ------------------------------------------------------------------------
  // Conflict options
  // ------------------------------------------------------------------------

  /** What a conflict does to one column: take the value proposed for insertion,
      keep the stored one, or set a given one. */
  datatype Assign = Excluded | Itself | Value(v: DbValue)

  type UpdateSet = map<Column, Assign>

  datatype ConflictOption =
    | ConflictColumns(columns: seq<Column>)
    | ResolveWithNewValues
    | ResolveWithIgnore
    | DoNothingOption
    | ResolveWith(assigns: seq<(Column, Assign)>)
    | IgnoreCreatedAtIfSet     // the closure UpdateNewValues appends

  function AssignEach(u: UpdateSet, columns: seq<Column>, a: Assign): UpdateSet {
    if columns == [] then u else AssignEach(u, columns[..|columns|-1], a)[columns[|columns|-1] := a]
  }

  function AssignPairs(u: UpdateSet, assigns: seq<(Column, Assign)>): UpdateSet {
    if assigns == [] then u
    else AssignPairs(u, assigns[..|assigns|-1])[assigns[|assigns|-1].0 := assigns[|assigns|-1].1]
  }

  /** What one option does to an update set for an insert of these columns; a
      later assignment to a column replaces an earlier one. `created` tells
      whether some mutation of the insert has its created_at set. */
  function Applied(u: UpdateSet, option: ConflictOption, columns: seq<Column>, created: bool): UpdateSet {
    match option
    case ConflictColumns(_) => u
    case ResolveWithNewValues => AssignEach(u, columns, Excluded)
    case ResolveWithIgnore => AssignEach(u, columns, Itself)
    case DoNothingOption => u
    case ResolveWith(assigns) => AssignPairs(u, assigns)
    case IgnoreCreatedAtIfSet => if created then u[FieldCreatedAt := Itself] else u
  }

  /** The update set after applying the options in order. */
  function Resolve(options: seq<ConflictOption>, columns: seq<Column>, created: bool): UpdateSet {
    if options == [] then map[]
    else Applied(Resolve(options[..|options|-1], columns, created), options[|options|-1], columns, created)
  }

  /** The row after a conflict between `stored` and `proposed`. */
  function Merge(u: UpdateSet, stored: Row, proposed: Row): Row {
    map c | c in stored.Keys + u.Keys ::
      if c !in u then Lookup(stored, c)
      else
        match u[c]
        case Excluded => Lookup(proposed, c)
        case Itself => Lookup(stored, c)
        case Value(v) => v
  }

  function OnConflict(options: seq<ConflictOption>, columns: seq<Column>, created: bool, stored: Row, proposed: Row)
    : Row
  {
    if DoNothingOption in options then stored else Merge(Resolve(options, columns, created), stored, proposed)
  }

  /** The conflict leaves created_at alone. */
  predicate Frozen(u: UpdateSet) {
    FieldCreatedAt !in u || u[FieldCreatedAt] == Itself
  }

  /** An update set keeps every stored created_at, whatever is proposed, if and
      only if it is frozen. */
  lemma {:induction false} FrozenIsExact(u: UpdateSet)
    ensures Frozen(u) <==>
            forall stored, proposed ::
              Lookup(Merge(u, stored, proposed), FieldCreatedAt) == Lookup(stored, FieldCreatedAt)
  {
    if !Frozen(u) {
      var stored: Row := map[FieldCreatedAt := Timestamp(if u[FieldCreatedAt] == Value(Timestamp(1)) then 3 else 1)];
      var proposed: Row := map[FieldCreatedAt := Timestamp(2)];
      assert Lookup(Merge(u, stored, proposed), FieldCreatedAt) != Lookup(stored, FieldCreatedAt);
    }
  }

  /** A conflict resolved by these options keeps the stored created_at. */
  predicate Keeps(options: seq<ConflictOption>, columns: seq<Column>, created: bool) {
    DoNothingOption in options || Frozen(Resolve(options, columns, created))
  }

  /** Whatever options are given, raw ones included, every stored created_at
      survives every conflict if and only if they do nothing or are frozen. */
  lemma {:induction false} KeepsIsExact(options: seq<ConflictOption>, columns: seq<Column>, created: bool)
    ensures Keeps(options, columns, created) <==>
            forall stored, proposed ::
              Lookup(OnConflict(options, columns, created, stored, proposed), FieldCreatedAt) ==
              Lookup(stored, FieldCreatedAt)
  {
    var u := Resolve(options, columns, created);
    FrozenIsExact(u);
    if !Keeps(options, columns, created) {
      var stored, proposed :| Lookup(Merge(u, stored, proposed), FieldCreatedAt) != Lookup(stored, FieldCreatedAt);
      assert OnConflict(options, columns, created, stored, proposed) == Merge(u, stored, proposed);
    }
  }

  // ------------------------------------------------------------------------
  // The upsert builder
  // ------------------------------------------------------------------------

  /** The calls the upsert builders offer. `Update` hands out generated setters,
      and none is generated for created_at. */
  datatype UpsertCall =
    | OnColumns(columns: seq<Column>)
    | UpdateNewValues
    | Ignore
    | DoNothing
    | Update(assigns: seq<(Column, Assign)>)

  predicate Generated(call: UpsertCall) {
    call.Update? ==> forall a <- call.assigns :: a.0 != FieldCreatedAt
  }

  /** The options a call appends. */
  function OptionsOf(call: UpsertCall): seq<ConflictOption> {
    match call
    case OnColumns(columns) => [ConflictColumns(columns)]
    case UpdateNewValues => [ResolveWithNewValues, IgnoreCreatedAtIfSet]
    case Ignore => [ResolveWithIgnore]
    case DoNothing => [DoNothingOption]
    case Update(assigns) => [ResolveWith(assigns)]
  }

  function AllOptions(calls: seq<UpsertCall>): seq<ConflictOption> {
    if calls == [] then [] else AllOptions(calls[..|calls|-1]) + OptionsOf(calls[|calls|-1])
  }

  /** The builder appends to the options of the create builder it wraps. */
  class AccountUpsert {
    var conflict: seq<ConflictOption>
    ghost var calls: seq<UpsertCall>

    ghost predicate Valid()
      reads this
    {
      conflict == AllOptions(calls)
    }

    constructor (columns: seq<Column>)
      ensures Valid() && calls == [OnColumns(columns)] && conflict == [ConflictColumns(columns)]
    {
      conflict := [ConflictColumns(columns)];
      calls := [OnColumns(columns)];
      new;
      Extend([], OnColumns(columns));
      assert [] + [OnColumns(columns)] == calls;
    }

    method UpdateNewValues()
      requires Valid()
      modifies this
      ensures Valid() && calls == old(calls) + [UpsertCall.UpdateNewValues]
      ensures conflict == old(conflict) + [ResolveWithNewValues, IgnoreCreatedAtIfSet]
    {
      Extend(calls, UpsertCall.UpdateNewValues);
      conflict := conflict + [ResolveWithNewValues];
      conflict := conflict + [IgnoreCreatedAtIfSet];
      calls := calls + [UpsertCall.UpdateNewValues];
    }

    method Ignore()
      requires Valid()
      modifies this
      ensures Valid() && calls == old(calls) + [UpsertCall.Ignore]
      ensures conflict == old(conflict) + [ResolveWithIgnore]
    {
      Extend(calls, UpsertCall.Ignore);
      conflict := conflict + [ResolveWithIgnore];
      calls := calls + [UpsertCall.Ignore];
    }

    method DoNothing()
      requires Valid()
      modifies this
      ensures Valid() && calls == old(calls) + [UpsertCall.DoNothing]
      ensures conflict == old(conflict) + [DoNothingOption]
    {
      Extend(calls, UpsertCall.DoNothing);
      conflict := conflict + [DoNothingOption];
      calls := calls + [UpsertCall.DoNothing];
    }

    method Update(assigns: seq<(Column, Assign)>)
      requires Valid()
      modifies this
      ensures Valid() && calls == old(calls) + [UpsertCall.Update(assigns)]
      ensures conflict == old(conflict) + [ResolveWith(assigns)]
    {
      Extend(calls, UpsertCall.Update(assigns));
      conflict := conflict + [ResolveWith(assigns)];
      calls := calls + [UpsertCall.Update(assigns)];
    }
  }

  lemma {:induction false} Extend(calls: seq<UpsertCall>, call: UpsertCall)
    ensures AllOptions(calls + [call]) == AllOptions(calls) + OptionsOf(call)
    ensures call.UpdateNewValues? ==>
            AllOptions(calls) + OptionsOf(call) == AllOptions(calls) + [ResolveWithNewValues] + [IgnoreCreatedAtIfSet]
    ensures AllOptions([]) == []
  {
    assert (calls + [call])[..|calls|] == calls;
  }

  lemma {:induction false} AssignEachAt(u: UpdateSet, columns: seq<Column>, a: Assign, c: Column)
    ensures var w := AssignEach(u, columns, a);
            (c in w <==> c in u || c in columns) && (c in w ==> w[c] == if c in columns then a else u[c])
  {
    if columns != [] {
      AssignEachAt(u, columns[..|columns|-1], a, c);
      assert columns == columns[..|columns|-1] + [columns[|columns|-1]];
    }
  }

  lemma {:induction false} AssignPairsFrame(u: UpdateSet, assigns: seq<(Column, Assign)>, c: Column)
    requires forall a <- assigns :: a.0 != c
    ensures var w := AssignPairs(u, assigns);
            (c in w <==> c in u) && (c in w ==> w[c] == u[c])
  {
    if assigns != [] {
      AssignPairsFrame(u, assigns[..|assigns|-1], c);
      assert assigns[|assigns|-1] in assigns;
    }
  }

  lemma {:induction false} ResolveExtended(options: seq<ConflictOption>, option: ConflictOption,
                                           columns: seq<Column>, created: bool)
    ensures Resolve(options + [option], columns, created) ==
            Applied(Resolve(options, columns, created), option, columns, created)
  {
    assert (options + [option])[..|options|] == options;
  }

  lemma {:induction false} NewValuesFreeze(options: seq<ConflictOption>, columns: seq<Column>, created: bool)
    requires FieldCreatedAt in columns ==> created
    requires Frozen(Resolve(options, columns, created))
    ensures Frozen(Resolve(options + [ResolveWithNewValues, IgnoreCreatedAtIfSet], columns, created))
  {
    AssignEachAt(Resolve(options, columns, created), columns, Excluded, FieldCreatedAt);
    ResolveExtended(options, ResolveWithNewValues, columns, created);
    ResolveExtended(options + [ResolveWithNewValues], IgnoreCreatedAtIfSet, columns, created);
    assert options + [ResolveWithNewValues] + [IgnoreCreatedAtIfSet] ==
           options + [ResolveWithNewValues, IgnoreCreatedAtIfSet];
  }

  /** What UpdateNewValues makes of the update set of the options before. */
  lemma {:induction false} NewValuesAt(options: seq<ConflictOption>, columns: seq<Column>, created: bool, c: Column)
    ensures var u := Resolve(options, columns, created);
            var w := Resolve(options + [ResolveWithNewValues, IgnoreCreatedAtIfSet], columns, created);
            if c == FieldCreatedAt && created then c in w && w[c] == Itself
            else if c in columns then c in w && w[c] == Excluded
            else (c in w <==> c in u) && (c in w ==> w[c] == u[c])
  {
    AssignEachAt(Resolve(options, columns, created), columns, Excluded, c);
    ResolveExtended(options, ResolveWithNewValues, columns, created);
    ResolveExtended(options + [ResolveWithNewValues], IgnoreCreatedAtIfSet, columns, created);
    assert options + [ResolveWithNewValues] + [IgnoreCreatedAtIfSet] ==
           options + [ResolveWithNewValues, IgnoreCreatedAtIfSet];
  }

  /** After any options, UpdateNewValues gives every inserted column its new value,
      except created_at, and leaves the other columns to the options before; unless
      one of those is to do nothing. */
  lemma {:induction false} NewValuesMeaning(
      options: seq<ConflictOption>, columns: seq<Column>, created: bool, stored: Row, proposed: Row, c: Column)
    ensures Lookup(OnConflict(options + [ResolveWithNewValues, IgnoreCreatedAtIfSet], columns, created,
                              stored, proposed), c) ==
            if DoNothingOption in options || (c == FieldCreatedAt && created) then Lookup(stored, c)
            else if c in columns then Lookup(proposed, c)
            else Lookup(OnConflict(options, columns, created, stored, proposed), c)
  {
    NewValuesAt(options, columns, created, c);
    assert DoNothingOption in options + [ResolveWithNewValues, IgnoreCreatedAtIfSet] <==> DoNothingOption in options;
  }

  /** After any options, Ignore keeps every inserted column as stored. */
  lemma {:induction false} IgnoreMeaning(options: seq<ConflictOption>, columns: seq<Column>, created: bool,
                                         stored: Row, proposed: Row, c: Column)
    ensures Lookup(OnConflict(options + [ResolveWithIgnore], columns, created, stored, proposed), c) ==
            if c in columns then Lookup(stored, c)
            else Lookup(OnConflict(options, columns, created, stored, proposed), c)
  {
    AssignEachAt(Resolve(options, columns, created), columns, Itself, c);
    ResolveExtended(options, ResolveWithIgnore, columns, created);
    assert DoNothingOption in options + [ResolveWithIgnore] <==> DoNothingOption in options;
  }

  lemma {:induction false} AssignPairsAt(u: UpdateSet, assigns: seq<(Column, Assign)>, k: nat)
    requires k < |assigns| && forall l :: k < l < |assigns| ==> assigns[l].0 != assigns[k].0
    ensures var w := AssignPairs(u, assigns);
            assigns[k].0 in w && w[assigns[k].0] == assigns[k].1
  {
    if k < |assigns| - 1 {
      AssignPairsAt(u, assigns[..|assigns|-1], k);
    }
  }

  /** What Update makes of the update set of the options before. */
  lemma {:induction false} UpdateAt(options: seq<ConflictOption>, columns: seq<Column>, created: bool,
                                    assigns: seq<(Column, Assign)>, c: Column, k: int)
    requires -1 <= k < |assigns| && (k >= 0 ==> assigns[k].0 == c)
    requires forall l :: k < l < |assigns| ==> assigns[l].0 != c
    ensures var u, w := Resolve(options, columns, created), Resolve(options + [ResolveWith(assigns)], columns, created);
            if k >= 0 then c in w && w[c] == assigns[k].1
            else (c in w <==> c in u) && (c in w ==> w[c] == u[c])
  {
    ResolveExtended(options, ResolveWith(assigns), columns, created);
    if k < 0 {
      AssignPairsFrame(Resolve(options, columns, created), assigns, c);
    } else {
      AssignPairsAt(Resolve(options, columns, created), assigns, k);
    }
  }

  /** After any options, Update gives every column it names what its last assignment
      to it says: the proposed value, the stored one or the one given. It leaves the
      other columns to the options before. `k` is the last assignment to `c`, or -1. */
  lemma {:induction false} UpdateMeaning(
      options: seq<ConflictOption>, columns: seq<Column>, created: bool, stored: Row, proposed: Row,
      assigns: seq<(Column, Assign)>, c: Column, k: int)
    requires -1 <= k < |assigns| && (k >= 0 ==> assigns[k].0 == c)
    requires forall l :: k < l < |assigns| ==> assigns[l].0 != c
    ensures Lookup(OnConflict(options + [ResolveWith(assigns)], columns, created, stored, proposed), c) ==
            if DoNothingOption in options then Lookup(stored, c)
            else if k < 0 then Lookup(OnConflict(options, columns, created, stored, proposed), c)
            else match assigns[k].1
                 case Excluded => Lookup(proposed, c)
                 case Itself => Lookup(stored, c)
                 case Value(v) => v
  {
    UpdateAt(options, columns, created, assigns, c, k);
    assert DoNothingOption in options + [ResolveWith(assigns)] <==> DoNothingOption in options;
  }

  /** DoNothing keeps the stored row, whatever is said before and after it, and naming
      the conflict columns changes nothing. */
  lemma {:induction false} DoNothingMeaning(before: seq<ConflictOption>, after: seq<ConflictOption>,
                                            target: seq<Column>, columns: seq<Column>, created: bool,
                                            stored: Row, proposed: Row)
    ensures OnConflict(before + [DoNothingOption] + after, columns, created, stored, proposed) == stored
    ensures OnConflict(before + [ConflictColumns(target)], columns, created, stored, proposed) ==
            OnConflict(before, columns, created, stored, proposed)
  {
    assert (before + [DoNothingOption] + after)[|before|] == DoNothingOption;
    ResolveExtended(before, ConflictColumns(target), columns, created);
  }

  lemma {:induction false} AppliedFreezes(u: UpdateSet, option: ConflictOption, columns: seq<Column>, created: bool)
    requires Frozen(u) && !option.ResolveWithNewValues?
    requires option.ResolveWith? ==> forall a <- option.assigns :: a.0 != FieldCreatedAt
    ensures Frozen(Applied(u, option, columns, created))
  {
    if option.ResolveWithIgnore? {
      AssignEachAt(u, columns, Itself, FieldCreatedAt);
    } else if option.ResolveWith? {
      AssignPairsFrame(u, option.assigns, FieldCreatedAt);
    }
  }

  lemma {:induction false} CallFreezes(options: seq<ConflictOption>, call: UpsertCall, columns: seq<Column>,
                                       created: bool)
    requires Generated(call) && (FieldCreatedAt in columns ==> created)
    requires Frozen(Resolve(options, columns, created))
    ensures Frozen(Resolve(options + OptionsOf(call), columns, created))
  {
    if call.UpdateNewValues? {
      NewValuesFreeze(options, columns, created);
    } else {
      var option := OptionsOf(call)[0];
      assert OptionsOf(call) == [option];
      AppliedFreezes(Resolve(options, columns, created), option, columns, created);
      ResolveExtended(options, option, columns, created);
    }
  }

  /** Whatever calls are made, in any order and number, the options freeze created_at. */
  lemma {:induction false} BuilderFreezes(calls: seq<UpsertCall>, columns: seq<Column>, created: bool)
    requires forall call <- calls :: Generated(call)
    requires FieldCreatedAt in columns ==> created
    ensures Frozen(Resolve(AllOptions(calls), columns, created))
  {
    if calls != [] {
      BuilderFreezes(calls[..|calls|-1], columns, created);
      CallFreezes(AllOptions(calls[..|calls|-1]), calls[|calls|-1], columns, created);
    }
  }

  /** Two option lists have the same effect on every conflict. */
  ghost predicate SameEffect(options: seq<ConflictOption>, others: seq<ConflictOption>, columns: seq<Column>,
                             created: bool) {
    forall stored, proposed, c ::
      Lookup(OnConflict(options, columns, created, stored, proposed), c) ==
      Lookup(OnConflict(others, columns, created, stored, proposed), c)
  }

  /** The documentation calls UpdateNewValues equivalent to the bare option
      ResolveWithNewValues. After any other options, it is so if and only if no
      inserted row sets created_at or one of those options is to do nothing. */
  lemma {:induction false} NewValuesEquivalence(options: seq<ConflictOption>, columns: seq<Column>, created: bool)
    requires FieldCreatedAt in columns <==> created
    ensures SameEffect(options + OptionsOf(UpsertCall.UpdateNewValues), options + [ResolveWithNewValues],
                       columns, created) <==>
            !created || DoNothingOption in options
  {
    var guarded, bare := options + OptionsOf(UpsertCall.UpdateNewValues), options + [ResolveWithNewValues];
    if created && DoNothingOption !in options {
      var stored: Row, proposed: Row := map[FieldCreatedAt := Timestamp(1)], map[FieldCreatedAt := Timestamp(2)];
      NewValuesMeaning(options, columns, created, stored, proposed, FieldCreatedAt);
      BareMeaning(options, columns, created, stored, proposed, FieldCreatedAt);
      assert Lookup(OnConflict(guarded, columns, created, stored, proposed), FieldCreatedAt) !=
             Lookup(OnConflict(bare, columns, created, stored, proposed), FieldCreatedAt);
    } else {
      forall stored, proposed, c
        ensures Lookup(OnConflict(guarded, columns, created, stored, proposed), c) ==
                Lookup(OnConflict(bare, columns, created, stored, proposed), c)
      {
        NewValuesMeaning(options, columns, created, stored, proposed, c);
        BareMeaning(options, columns, created, stored, proposed, c);
      }
    }
  }

  /** The bare option gives every inserted column its new value. */
  lemma {:induction false} BareMeaning(options: seq<ConflictOption>, columns: seq<Column>, created: bool,
                                       stored: Row, proposed: Row, c: Column)
    ensures Lookup(OnConflict(options + [ResolveWithNewValues], columns, created, stored, proposed), c) ==
            if DoNothingOption in options then Lookup(stored, c)
            else if c in columns then Lookup(proposed, c)
            else Lookup(OnConflict(options, columns, created, stored, proposed), c)
  {
    AssignEachAt(Resolve(options, columns, created), columns, Excluded, c);
    ResolveExtended(options, ResolveWithNewValues, columns, created);
    assert DoNothingOption in options + [ResolveWithNewValues] <==> DoNothingOption in options;
  }

  /** So the bare option leaves created_at alone if and only if no inserted row sets it. */
  lemma {:induction false} BareNewValuesOverwrites(columns: seq<Column>, created: bool)
    ensures Frozen(Resolve([ResolveWithNewValues], columns, created)) <==> FieldCreatedAt !in columns
  {
    assert [] + [ResolveWithNewValues] == [ResolveWithNewValues];
    ResolveExtended([], ResolveWithNewValues, columns, created);
    AssignEachAt(map[], columns, Excluded, FieldCreatedAt);
  }

  // ------------------------------------------------------------------------
  // Updates
  // ------------------------------------------------------------------------

  /** The columns `sqlSave` of the update builders writes for a mutation with these
      fields: it has no clause for created_at. Fields and edges are cleared before
      they are set, so a pending value wins over a clear, whichever call came first. */
  function UpdateColumns(js: JsonCodec, f: Fields, notesCleared: bool, proxyCleared: bool): Row {
    var u := ClearedColumns(notesCleared, proxyCleared);
    var u := PutIf(u, FieldUpdatedAt, Written(js, f, FieldUpdatedAt));
    var u := PutIf(u, FieldName, Written(js, f, FieldName));
    var u := PutIf(u, FieldNotes, Written(js, f, FieldNotes));
    var u := PutIf(u, FieldCredentials, Written(js, f, FieldCredentials));
    var u := PutIf(u, FieldSchedulable, Written(js, f, FieldSchedulable));
    PutIf(u, FieldProxyID, if f.proxy.None? then None else Some(Int(f.proxy.value)))
  }

  function ClearedColumns(notesCleared: bool, proxyCleared: bool): Row {
    PutIf(PutIf(map[], FieldNotes, if notesCleared then Some(Null) else None),
          FieldProxyID, if proxyCleared then Some(Null) else None)
  }

  function PutIf(u: Row, c: Column, v: Option<DbValue>): Row {
    if v.None? then u else u[c := v.value]
  }

  function Written(js: JsonCodec, f: Fields, c: Column): Option<DbValue> {
    if Given(f, c).None? then None else Some(Encode(js, Given(f, c).value))
  }

  function Entry(u: Row, c: Column): Option<DbValue> {
    if c in u then Some(u[c]) else None
  }

  lemma {:induction false} UpdateColumnsAt(js: JsonCodec, f: Fields, notesCleared: bool, proxyCleared: bool, c: Column)
    ensures Entry(UpdateColumns(js, f, notesCleared, proxyCleared), c) ==
            if c == FieldCreatedAt then None
            else if c == FieldProxyID && f.proxy.Some? then Some(Int(f.proxy.value))
            else if Given(f, c).Some? then Written(js, f, c)
            else if (c == FieldNotes && notesCleared) || (c == FieldProxyID && proxyCleared) then Some(Null)
            else None
  {
    var u := ClearedColumns(notesCleared, proxyCleared);
    PutAt(map[], FieldNotes, if notesCleared then Some(Null) else None, c);
    PutAt(PutIf(map[], FieldNotes, if notesCleared then Some(Null) else None),
          FieldProxyID, if proxyCleared then Some(Null) else None, c);
    var u1 := PutIf(u, FieldUpdatedAt, Written(js, f, FieldUpdatedAt));
    var u2 := PutIf(u1, FieldName, Written(js, f, FieldName));
    var u3 := PutIf(u2, FieldNotes, Written(js, f, FieldNotes));
    var u4 := PutIf(u3, FieldCredentials, Written(js, f, FieldCredentials));
    var u5 := PutIf(u4, FieldSchedulable, Written(js, f, FieldSchedulable));
    PutAt(u, FieldUpdatedAt, Written(js, f, FieldUpdatedAt), c);
    PutAt(u1, FieldName, Written(js, f, FieldName), c);
    PutAt(u2, FieldNotes, Written(js, f, FieldNotes), c);
    PutAt(u3, FieldCredentials, Written(js, f, FieldCredentials), c);
    PutAt(u4, FieldSchedulable, Written(js, f, FieldSchedulable), c);
    PutAt(u5, FieldProxyID, if f.proxy.None? then None else Some(Int(f.proxy.value)), c);
  }

  lemma {:induction false} PutAt(u: Row, c: Column, v: Option<DbValue>, x: Column)
    ensures Entry(PutIf(u, c, v), x) == if x == c && v.Some? then v else Entry(u, x)
  {
  }

  function OverwriteRow(row: Row, changes: Row): Row {
    row + changes
  }

  lemma {:induction false} OverwrittenAt(row: Row, changes: Row, c: Column)
    ensures Lookup(OverwriteRow(row, changes), c) ==
            if Entry(changes, c).Some? then Entry(changes, c).value else Lookup(row, c)
  {
  }

  /** An update writes what a create of the same mutation would store, clears what
      is marked cleared and has no pending value, and leaves every other column, the
      ID and created_at always. */
  lemma {:induction false} UpdatedRowHolds(js: JsonCodec, row: Row, f: Fields, notesCleared: bool,
                                           proxyCleared: bool, id: int, c: Column)
    ensures var created := Lookup(StoredRow(js, Some(id), SpecOf(f)), c);
            Lookup(OverwriteRow(row, UpdateColumns(js, f, notesCleared, proxyCleared)), c) ==
            if c == FieldID || c == FieldCreatedAt then Lookup(row, c)
            else if !created.Null? then created
            else if (c == FieldNotes && notesCleared) || (c == FieldProxyID && proxyCleared) then Null
            else Lookup(row, c)
  {
    ColumnHolds(js, id, f, c);
    UpdateColumnsAt(js, f, notesCleared, proxyCleared, c);
    OverwrittenAt(row, UpdateColumns(js, f, notesCleared, proxyCleared), c);
    WrittenIsExpected(js, id, f, c);
  }

  /** A value that is written is what a create would store, and never NULL. */
  lemma {:induction false} WrittenIsExpected(js: JsonCodec, id: int, f: Fields, c: Column)
    ensures Given(f, c).Some? ==>
              !Encode(js, Given(f, c).value).Null? && Expected(js, id, f, c) == Encode(js, Given(f, c).value)
  {
  }

  // ------------------------------------------------------------------------
  // Runs
  // ------------------------------------------------------------------------

  type Table = map<int, Row>

  /** One row of an insert: its spec's row, and the stored row it conflicts with,
      as the database decides. Without a conflict it is stored under `id`. */
  datatype Proposal = Proposal(id: int, row: Row, conflict: Option<int>)

  /** `Upsert` covers a create, with no options, and one or many proposals. Its
      options may come from the upsert builders or be given raw. */
  datatype Operation =
    | Upsert(proposals: seq<Proposal>, options: seq<ConflictOption>)
    | UpdateRows(ids: set<int>, changes: Row)
    | DeleteRows(ids: set<int>)

  /** The columns of a batch insert: those some row of it sets. */
  ghost predicate InsertColumns(columns: seq<Column>, proposals: seq<Proposal>) {
    forall c :: c in columns <==> exists p <- proposals :: c in p.row
  }

  function SomeCreatedAt(proposals: seq<Proposal>): bool {
    exists p <- proposals :: FieldCreatedAt in p.row
  }

  /** An upsert must keep created_at on conflicts, an update must be one the update
      builders write. */
  ghost predicate Allowed(op: Operation) {
    match op
    case Upsert(proposals, options) =>
      forall columns | InsertColumns(columns, proposals) :: Keeps(options, columns, SomeCreatedAt(proposals))
    case UpdateRows(_, changes) =>
      exists js, f, notesCleared, proxyCleared :: changes == UpdateColumns(js, f, notesCleared, proxyCleared)
    case DeleteRows(_) => true
  }

  function StoreAll(t: Table, proposals: seq<Proposal>, options: seq<ConflictOption>, columns: seq<Column>,
                    created: bool): Table {
    if proposals == [] then t
    else
      var before := StoreAll(t, proposals[..|proposals|-1], options, columns, created);
      var p := proposals[|proposals|-1];
      if p.conflict.Some? && p.conflict.value in before
      then before[p.conflict.value := OnConflict(options, columns, created, before[p.conflict.value], p.row)]
      else if p.id in before then before     // a taken primary key without a resolved conflict: the insert is refused
      else before[p.id := p.row]
  }

  function Execute(t: Table, op: Operation, columns: seq<Column>): Table {
    match op
    case Upsert(proposals, options) => StoreAll(t, proposals, options, columns, SomeCreatedAt(proposals))
    case UpdateRows(ids, changes) => map id | id in t :: if id in ids then OverwriteRow(t[id], changes) else t[id]
    case DeleteRows(ids) => t - ids
  }

  /** A run: the tables before and after each operation. */
  ghost predicate IsRun(tables: seq<Table>, ops: seq<Operation>) {
    |tables| == |ops| + 1 &&
    forall k :: 0 <= k < |ops| ==>
      Allowed(ops[k]) && Leads(tables[k], ops[k], tables[k+1])
  }

  ghost predicate Leads(t: Table, op: Operation, t': Table) {
    exists columns :: IsExecuted(t, op, columns, t')
  }

  ghost predicate IsExecuted(t: Table, op: Operation, columns: seq<Column>, t': Table) {
    (op.Upsert? ==> InsertColumns(columns, op.proposals)) && t' == Execute(t, op, columns)
  }

  function CreatedAt(t: Table, id: int): DbValue
    requires id in t
  {
    Lookup(t[id], FieldCreatedAt)
  }

  lemma {:induction false} StoreAllFreezes(t: Table, proposals: seq<Proposal>, options: seq<ConflictOption>,
                                           columns: seq<Column>, created: bool, id: int)
    requires Keeps(options, columns, created) && id in t
    ensures id in StoreAll(t, proposals, options, columns, created)
    ensures CreatedAt(StoreAll(t, proposals, options, columns, created), id) == CreatedAt(t, id)
  {
    if proposals != [] {
      StoreAllFreezes(t, proposals[..|proposals|-1], options, columns, created, id);
      KeepsIsExact(options, columns, created);
    }
  }

  /** The proposal is for this ID and proposes this created_at. */
  predicate Proposes(p: Proposal, id: int, createdAt: DbValue) {
    p.id == id && Lookup(p.row, FieldCreatedAt) == createdAt
  }

  /** If this row is a new one, it was proposed, with its created_at. */
  ghost predicate NewIsProposed(t: Table, t': Table, proposals: seq<Proposal>, id: int) {
    id in t' && id !in t ==> exists p <- proposals :: Proposes(p, id, CreatedAt(t', id))
  }

  /** An upsert keeps every row no proposal conflicts with and stores none but proposed
      ones: a row that was not stored before has, if the options keep created_at, the
      one proposed for it. A proposal without a conflict is stored unless its ID is taken. */
  lemma {:induction false} StoreAllMeaning(t: Table, proposals: seq<Proposal>, options: seq<ConflictOption>,
                                           columns: seq<Column>, created: bool, id: int)
    requires Keeps(options, columns, created)
    ensures var t' := StoreAll(t, proposals, options, columns, created);
            && (id in t && (forall p <- proposals :: p.conflict != Some(id)) ==> id in t' && t'[id] == t[id])
            && NewIsProposed(t, t', proposals, id)
            && (forall p <- proposals :: p.conflict.None? ==> p.id in t')
  {
    if proposals != [] {
      var before, p := proposals[..|proposals|-1], proposals[|proposals|-1];
      assert proposals == before + [p];
      StoreAllMeaning(t, before, options, columns, created, id);
      NewStep(t, proposals, options, columns, created, id);
    }
  }

  lemma {:induction false} NewStep(t: Table, proposals: seq<Proposal>, options: seq<ConflictOption>,
                                   columns: seq<Column>, created: bool, id: int)
    requires Keeps(options, columns, created) && proposals != []
    requires var before := proposals[..|proposals|-1];
             NewIsProposed(t, StoreAll(t, before, options, columns, created), before, id)
    ensures NewIsProposed(t, StoreAll(t, proposals, options, columns, created), proposals, id)
  {
    var before, last := proposals[..|proposals|-1], proposals[|proposals|-1];
    var s, t' := StoreAll(t, before, options, columns, created), StoreAll(t, proposals, options, columns, created);
    KeepsIsExact(options, columns, created);
    assert last in proposals;
    if id in s && id !in t {
      assert CreatedAt(t', id) == CreatedAt(s, id);
      var p :| p in before && Proposes(p, id, CreatedAt(s, id));
      assert p in proposals;
    } else if id in t' && id !in t {
      assert Proposes(last, id, CreatedAt(t', id));
    }
  }

  /** The table holds these rows on top of the others. */
  ghost predicate Adds(t: Table, t': Table, proposals: seq<Proposal>) {
    && (forall id :: id in t' <==> id in t || exists p <- proposals :: p.id == id)
    && (forall id :: id in t ==> id in t' && t'[id] == t[id])
    && (forall p <- proposals :: p.id in t' && t'[p.id] == p.row)
  }

  /** A create of new rows without conflicts stores exactly them, as proposed. */
  lemma {:induction false} CreatesAreStored(t: Table, proposals: seq<Proposal>, options: seq<ConflictOption>,
                                            columns: seq<Column>, created: bool)
    requires AllNew(t, proposals)
    ensures Adds(t, StoreAll(t, proposals, options, columns, created), proposals)
  {
    if proposals != [] {
      var before, p := proposals[..|proposals|-1], proposals[|proposals|-1];
      AllNewBefore(t, proposals);
      CreatesAreStored(t, before, options, columns, created);
      AddsOne(t, StoreAll(t, before, options, columns, created), before, p);
      assert before + [p] == proposals;
    }
  }

  /** The proposals are for different IDs nothing is stored under, and conflict with nothing. */
  ghost predicate AllNew(t: Table, proposals: seq<Proposal>) {
    && (forall p <- proposals :: p.conflict.None? && p.id !in t)
    && (forall i, j :: 0 <= i < j < |proposals| ==> proposals[i].id != proposals[j].id)
  }

  lemma {:induction false} AllNewBefore(t: Table, proposals: seq<Proposal>)
    requires AllNew(t, proposals) && proposals != []
    ensures var before, p := proposals[..|proposals|-1], proposals[|proposals|-1];
            AllNew(t, before) && p.conflict.None? && p.id !in t && forall q <- before :: q.id != p.id
  {
    assert forall q <- proposals[..|proposals|-1] :: q in proposals;
    assert proposals[|proposals|-1] in proposals;
  }

  lemma {:induction false} AddsOne(t: Table, s: Table, before: seq<Proposal>, p: Proposal)
    requires Adds(t, s, before) && p.id !in t && forall q <- before :: q.id != p.id
    ensures p.id !in s && Adds(t, s[p.id := p.row], before + [p])
  {
    var t', all := s[p.id := p.row], before + [p];
    assert all[|before|] == p;
    forall id
      ensures id in t' <==> id in t || exists q <- all :: q.id == id
    {
      if q :| q in before && q.id == id {
        assert q in all;
      }
    }
  }

  /** An update or a delete changes nothing but the rows it names, and a delete
      removes those. */
  lemma {:induction false} OtherRowsStay(t: Table, ids: set<int>, changes: Row, columns: seq<Column>, id: int)
    ensures var updated, left := Execute(t, UpdateRows(ids, changes), columns), Execute(t, DeleteRows(ids), columns);
            && (id in updated <==> id in t) && (id in t && id !in ids ==> updated[id] == t[id])
            && (id in left <==> id in t && id !in ids) && (id in left ==> left[id] == t[id])
            && (id in t && id in ids ==> forall c :: Lookup(updated[id], c) == if c in changes then changes[c]
                                                                             else Lookup(t[id], c))
  {
  }

  lemma {:induction false} StepFreezes(t: Table, op: Operation, columns: seq<Column>, t': Table, id: int)
    requires Allowed(op) && IsExecuted(t, op, columns, t')
    requires id in t && id in t'
    ensures CreatedAt(t', id) == CreatedAt(t, id)
  {
    match op
    case Upsert(proposals, options) =>
      StoreAllFreezes(t, proposals, options, columns, SomeCreatedAt(proposals), id);
    case UpdateRows(ids, changes) =>
      var js, f, notesCleared, proxyCleared :| changes == UpdateColumns(js, f, notesCleared, proxyCleared);
      UpdatedRowHolds(js, t[id], f, notesCleared, proxyCleared, id, FieldCreatedAt);
    case DeleteRows(_) =>
  }

  /** Whatever calls the upsert builders offer, an upsert made of them is allowed. */
  lemma {:induction false} BuiltIsAllowed(proposals: seq<Proposal>, calls: seq<UpsertCall>)
    requires forall call <- calls :: Generated(call)
    ensures Allowed(Upsert(proposals, AllOptions(calls)))
  {
    forall columns | InsertColumns(columns, proposals)
      ensures Keeps(AllOptions(calls), columns, SomeCreatedAt(proposals))
    {
      BuilderFreezes(calls, columns, SomeCreatedAt(proposals));
    }
  }

  /** Over a whole run of creates, upserts, updates and deletes, a row that stays
      stored keeps the created_at it was first stored with. */
  lemma {:induction false} CreatedAtIsFrozen(tables: seq<Table>, ops: seq<Operation>, i: nat, j: nat, id: int)
    requires IsRun(tables, ops) && i <= j < |tables|
    requires forall k :: i <= k <= j ==> id in tables[k]
    ensures CreatedAt(tables[j], id) == CreatedAt(tables[i], id)
    decreases j - i
  {
    if i < j {
      CreatedAtIsFrozen(tables, ops, i, j - 1, id);
      assert Leads(tables[j-1], ops[j-1], tables[j-1+1]);
      var columns :| IsExecuted(tables[j-1], ops[j-1], columns, tables[j]);
      StepFreezes(tables[j-1], ops[j-1], columns, tables[j], id);
    }
  }
}
