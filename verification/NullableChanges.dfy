/** Updating what an account may lack: its proxy, which is both a field and an
    edge, and its notes. What the calls on the mutation record, what `sqlSave`
    builds from that, and when the saved value is that of the calls in order. */
module NullableChanges {
  import opened Prelude
  import opened RowCodec
  import opened AccountCreating
  import opened Upserting

  // ------------------------------------------------------------------------
  // The proxy
  // ------------------------------------------------------------------------

  /** The proxy part of a mutation: the pending target, whether the edge was
      cleared and whether the field is among the cleared fields. */
  datatype Pending = Pending(proxy: Option<int>, edgeCleared: bool, fieldCleared: bool)

  const NOTHING: Pending := Pending(None, false, false)

  datatype Call = SetProxyID(id: int) | ClearProxy | ClearProxyID | ResetProxy | ResetProxyID

  function Step(m: Pending, c: Call): Pending {
    match c
    case SetProxyID(id) => m.(proxy := Some(id))
    case ClearProxy => m.(edgeCleared := true, fieldCleared := true)
    case ClearProxyID => m.(proxy := None, fieldCleared := true)
    case ResetProxy => m.(proxy := None, edgeCleared := false)
    case ResetProxyID => m.(proxy := None, fieldCleared := false)
  }

  /** The edges of the proxy in the spec: whether one is cleared, and the target added. */
  datatype ProxyEdges = ProxyEdges(clear: bool, add: Option<int>)

  class ProxyMutation {
    var proxy: Option<int>
    var clearedproxy: bool
    var clearedFields: set<Column>

    constructor ()
      ensures State() == NOTHING
    {
      proxy, clearedproxy, clearedFields := None, false, {};
    }

    function State(): Pending
      reads this
    {
      Pending(proxy, clearedproxy, FieldProxyID in clearedFields)
    }

    method SetProxyID(id: int)
      modifies this
      ensures State() == Step(old(State()), Call.SetProxyID(id))
    {
      proxy := Some(id);
    }

    method ClearProxy()
      modifies this
      ensures State() == Step(old(State()), Call.ClearProxy)
    {
      clearedproxy := true;
      clearedFields := clearedFields + {FieldProxyID};
    }

    method ClearProxyID()
      modifies this
      ensures State() == Step(old(State()), Call.ClearProxyID)
    {
      proxy := None;
      clearedFields := clearedFields + {FieldProxyID};
    }

    method ResetProxy()
      modifies this
      ensures State() == Step(old(State()), Call.ResetProxy)
    {
      proxy, clearedproxy := None, false;
    }

    method ResetProxyID()
      modifies this
      ensures State() == Step(old(State()), Call.ResetProxyID)
    {
      proxy := None;
      clearedFields := clearedFields - {FieldProxyID};
    }

    function ProxyCleared(): bool
      reads this
    {
      FieldProxyID in clearedFields || clearedproxy
    }

    /** The proxy part of `sqlSave`, of both update builders. */
    method BuildProxyEdges() returns (spec: ProxyEdges)
      ensures spec == ProxyEdges(State().edgeCleared || State().fieldCleared, State().proxy)
    {
      spec := ProxyEdges(false, None);
      if ProxyCleared() {
        spec := spec.(clear := true);
      }
      if proxy.Some? {
        spec := spec.(add := proxy);
      }
    }
  }

  /** Clears are applied before adds. */
  function Apply(stored: Option<int>, spec: ProxyEdges): Option<int> {
    if spec.add.Some? then spec.add else if spec.clear then None else stored
  }

  /** The mutation after a sequence of calls, and what saving it leaves. */
  function Recorded(calls: seq<Call>): Pending {
    if calls == [] then NOTHING else Step(Recorded(calls[..|calls|-1]), calls[|calls|-1])
  }

  function Saved(stored: Option<int>, m: Pending): Option<int> {
    Apply(stored, ProxyEdges(m.edgeCleared || m.fieldCleared, m.proxy))
  }

  /** The proxy if every call took effect on the account at once. */
  function InOrder(stored: Option<int>, calls: seq<Call>): Option<int> {
    if calls == [] then stored
    else
      match calls[|calls|-1]
      case SetProxyID(id) => Some(id)
      case ClearProxy => None
      case ClearProxyID => None
      case ResetProxy => stored
      case ResetProxyID => stored
  }

  /** The target that was pending when the edge was cleared, if no call came between
      but further clears of the edge. */
  function OutlivedClear(calls: seq<Call>): Option<int> {
    if calls == [] || !calls[|calls|-1].ClearProxy? then None
    else
      var before := calls[..|calls|-1];
      if before == [] then None
      else if before[|before|-1].SetProxyID? then Some(before[|before|-1].id)
      else OutlivedClear(before)
  }

  /** Some clear of the edge came after the last reset of the edge. */
  predicate EdgeClearStands(calls: seq<Call>) {
    calls != [] &&
    match calls[|calls|-1]
    case ClearProxy => true
    case ResetProxy => false
    case _ => EdgeClearStands(calls[..|calls|-1])
  }

  /** Some clear of either kind came after the last reset of the field. */
  predicate FieldClearStands(calls: seq<Call>) {
    calls != [] &&
    match calls[|calls|-1]
    case ClearProxy => true
    case ClearProxyID => true
    case ResetProxyID => false
    case _ => FieldClearStands(calls[..|calls|-1])
  }

  /** The last call resets the edge while a clear of the field stands, or the other
      way round: the clear outlives the reset. */
  predicate OutlivedReset(calls: seq<Call>) {
    calls != [] &&
    match calls[|calls|-1]
    case ResetProxy => FieldClearStands(calls)
    case ResetProxyID => EdgeClearStands(calls)
    case _ => false
  }

  lemma {:induction false} RecordedFlags(calls: seq<Call>)
    ensures Recorded(calls).edgeCleared <==> EdgeClearStands(calls)
    ensures Recorded(calls).fieldCleared <==> FieldClearStands(calls)
  {
    if calls != [] {
      RecordedFlags(calls[..|calls|-1]);
    }
  }

  lemma {:induction false} RecordedTarget(calls: seq<Call>)
    ensures Recorded(calls).proxy ==
            if calls == [] then None
            else
              match calls[|calls|-1]
              case SetProxyID(id) => Some(id)
              case ClearProxy => OutlivedClear(calls)
              case _ => None
  {
    if calls != [] {
      RecordedTarget(calls[..|calls|-1]);
    }
  }

  /** Saving leaves the proxy of the calls in order, except that a target pending at
      a clear of the edge is stored all the same, and that a clear which outlived a
      reset still clears. */
  lemma {:induction false} SavedMeaning(stored: Option<int>, calls: seq<Call>)
    ensures Saved(stored, Recorded(calls)) ==
            if OutlivedClear(calls).Some? then OutlivedClear(calls)
            else if OutlivedReset(calls) then None
            else InOrder(stored, calls)
  {
    RecordedFlags(calls);
    RecordedTarget(calls);
  }

  /** So the saved proxy is that of the calls in order if and only if no pending
      target outlived a clear and no clear of a stored proxy outlived a reset. */
  lemma {:induction false} InOrderIffNothingOutlives(stored: Option<int>, calls: seq<Call>)
    ensures Saved(stored, Recorded(calls)) == InOrder(stored, calls) <==>
            OutlivedClear(calls).None? && (OutlivedReset(calls) ==> stored.None?)
  {
    SavedMeaning(stored, calls);
  }

  /** Setting proxy 5 and clearing the edge stores proxy 5. */
  lemma {:induction false} ClearKeepsPendingProxy(stored: Option<int>)
    ensures Saved(stored, Recorded([SetProxyID(5), ClearProxy])) == Some(5)
    ensures InOrder(stored, [SetProxyID(5), ClearProxy]) == None
  {
    var calls := [SetProxyID(5), ClearProxy];
    assert calls[..1] == [SetProxyID(5)] && [SetProxyID(5)][..0] == [];
    SavedMeaning(stored, calls);
  }

  /** Clearing the edge and resetting it clears a stored proxy. */
  lemma {:induction false} ResetKeepsClear()
    ensures Saved(Some(3), Recorded([ClearProxy, ResetProxy])) == None
    ensures InOrder(Some(3), [ClearProxy, ResetProxy]) == Some(3)
  {
    var calls := [ClearProxy, ResetProxy];
    assert calls[..1] == [ClearProxy] && [ClearProxy][..0] == [];
    SavedMeaning(Some(3), calls);
  }

  // ------------------------------------------------------------------------
  // The notes
  // ------------------------------------------------------------------------

  datatype NotesCall = SetNotes(s: string) | ClearNotes | ResetNotes

  datatype PendingNotes = PendingNotes(notes: Option<string>, cleared: bool)

  function RecordedNotes(calls: seq<NotesCall>): PendingNotes {
    if calls == [] then PendingNotes(None, false)
    else
      var m := RecordedNotes(calls[..|calls|-1]);
      match calls[|calls|-1]
      case SetNotes(s) => m.(notes := Some(s))
      case ClearNotes => PendingNotes(None, true)
      case ResetNotes => PendingNotes(None, false)
  }

  function NotesInOrder(stored: Option<string>, calls: seq<NotesCall>): Option<string> {
    if calls == [] then stored
    else
      match calls[|calls|-1]
      case SetNotes(s) => Some(s)
      case ClearNotes => None
      case ResetNotes => stored
  }

  // ------------------------------------------------------------------------
  // The stored row
  // ------------------------------------------------------------------------

  function IntValueOf(v: Option<int>): DbValue {
    if v.None? then Null else Int(v.value)
  }

  function TextValueOf(v: Option<string>): DbValue {
    if v.None? then Null else Text(v.value)
  }

  /** An update stores what the calls on its mutation amount to: for the proxy the
      saved one, whatever the order of sets, clears and resets, and for the notes
      always the one of the calls in order. */
  lemma {:induction false} UpdateStoresCalls(js: JsonCodec, row: Row, f: Fields, proxy: Option<int>,
                                             proxyCalls: seq<Call>, notes: Option<string>, notesCalls: seq<NotesCall>)
    requires Lookup(row, FieldProxyID) == IntValueOf(proxy) && f.proxy == Recorded(proxyCalls).proxy
    requires Lookup(row, FieldNotes) == TextValueOf(notes) && f.notes == RecordedNotes(notesCalls).notes
    ensures var m := Recorded(proxyCalls);
            var changes := UpdateColumns(js, f, RecordedNotes(notesCalls).cleared, m.edgeCleared || m.fieldCleared);
            && Lookup(OverwriteRow(row, changes), FieldProxyID) == IntValueOf(Saved(proxy, m))
            && Lookup(OverwriteRow(row, changes), FieldNotes) == TextValueOf(NotesInOrder(notes, notesCalls))
  {
    var m, n := Recorded(proxyCalls), RecordedNotes(notesCalls);
    var cleared := m.edgeCleared || m.fieldCleared;
    UpdateColumnsAt(js, f, n.cleared, cleared, FieldProxyID);
    UpdateColumnsAt(js, f, n.cleared, cleared, FieldNotes);
    OverwrittenAt(row, UpdateColumns(js, f, n.cleared, cleared), FieldProxyID);
    OverwrittenAt(row, UpdateColumns(js, f, n.cleared, cleared), FieldNotes);
  }
}
