/** Updating the groups of an account: the edge part of the mutation, the edge
    specs `sqlSave` builds from it, and what applying them does. */
module GroupEdges {
  import opened Prelude

  /** The groups part of an account mutation. */
  datatype Pending = Pending(added: set<int>, removed: set<int>, cleared: bool)

  const NOTHING_PENDING := Pending({}, {}, false)

  function Members(s: seq<int>): (r: set<int>)
    ensures r == {} <==> s == []
    ensures forall x :: x in r <==> x in s
  {
    var r := set x | x in s;
    assert s != [] ==> s[0] in r;
    r
  }

  lemma {:induction false} Inhabited(s: set<int>)
    requires s != {}
    ensures exists x :: x in s
  {
    if forall x :: x !in s {
      assert false;
    }
  }

  lemma {:induction false} MembersExtended(s: seq<int>, x: int)
    ensures Members(s + [x]) == Members(s) + {x}
  {
  }

  class GroupsMutation {
    var groups: set<int>
    var removedgroups: set<int>
    var clearedgroups: bool

    constructor ()
      ensures State() == NOTHING_PENDING
    {
      groups, removedgroups, clearedgroups := {}, {}, false;
    }

    function State(): Pending
      reads this
    {
      Pending(groups, removedgroups, clearedgroups)
    }

    method AddGroupIDs(ids: seq<int>)
      modifies this
      ensures State() == Step(old(State()), Add(ids))
    {
      for i := 0 to |ids|
        invariant State() == old(State()).(added := old(groups) + Members(ids[..i]))
      {
        assert ids[..i+1] == ids[..i] + [ids[i]];
        groups := groups + {ids[i]};
      }
      assert ids[..|ids|] == ids;
    }

    method RemoveGroupIDs(ids: seq<int>)
      modifies this
      ensures State() == Step(old(State()), Remove(ids))
    {
      for i := 0 to |ids|
        invariant State() == Pending(old(groups) - Members(ids[..i]),
                                     old(removedgroups) + Members(ids[..i]), old(clearedgroups))
      {
        assert ids[..i+1] == ids[..i] + [ids[i]];
        groups := groups - {ids[i]};
        removedgroups := removedgroups + {ids[i]};
      }
      assert ids[..|ids|] == ids;
    }

    method ClearGroups()
      modifies this
      ensures State() == Step(old(State()), Clear)
    {
      clearedgroups := true;
    }

    method ResetGroups()
      modifies this
      ensures State() == Step(old(State()), Reset)
    {
      groups, clearedgroups, removedgroups := {}, false, {};
    }

    /** The groups part of `sqlSave`, of the update builder for many accounts and
        of the one for a single account alike. */
    method BuildGroupEdges() returns (spec: EdgeChanges)
      ensures Describes(spec, State())
    {
      var clear: seq<seq<int>>, add: seq<seq<int>> := [], [];
      if clearedgroups {
        clear := clear + [[]];
      }
      var nodes := RangeOver(removedgroups);
      if |nodes| > 0 && !clearedgroups {
        clear := clear + [nodes];
      }
      nodes := RangeOver(groups);
      if |nodes| > 0 {
        add := add + [nodes];
      }
      spec := EdgeChanges(clear, add);
    }
  }

  /** The IDs of a Go set, in the unspecified order of ranging over it. */
  method RangeOver(s: set<int>) returns (ids: seq<int>)
    ensures Members(ids) == s && NoDup(ids)
  {
    ids := [];
    var todo := s;
    while todo != {}
      invariant todo <= s && Members(ids) == s - todo && NoDup(ids)
      decreases todo
    {
      Inhabited(todo);
      var id :| id in todo;
      assert id !in Members(ids);
      MembersExtended(ids, id);
      ids := ids + [id];
      todo := todo - {id};
    }
  }

  // ------------------------------------------------------------------------
  // Edge specs and their application
  // ------------------------------------------------------------------------

  /** `_spec.Edges`: the targets of each edge spec to clear and to add. Clearing
      without targets clears the whole edge. */
  datatype EdgeChanges = EdgeChanges(clear: seq<seq<int>>, add: seq<seq<int>>)

  /** The specs built for a mutation, whatever order its sets were ranged in. */
  ghost predicate Describes(spec: EdgeChanges, m: Pending) {
    && (if m.cleared then spec.clear == [[]]
        else if m.removed == {} then spec.clear == []
        else |spec.clear| == 1 && spec.clear[0] != [] && Members(spec.clear[0]) == m.removed)
    && (if m.added == {} then spec.add == [] else |spec.add| == 1 && Members(spec.add[0]) == m.added)
  }

  function ApplyClears(groups: set<int>, clear: seq<seq<int>>): set<int>
    decreases |clear|
  {
    if clear == [] then groups
    else ApplyClears(if clear[0] == [] then {} else groups - Members(clear[0]), clear[1..])
  }

  function ApplyAdds(groups: set<int>, add: seq<seq<int>>): set<int>
    decreases |add|
  {
    if add == [] then groups else ApplyAdds(groups + Members(add[0]), add[1..])
  }

  /** Clears are applied before adds. */
  function Apply(groups: set<int>, spec: EdgeChanges): set<int> {
    ApplyAdds(ApplyClears(groups, spec.clear), spec.add)
  }

  function Final(groups: set<int>, m: Pending): set<int> {
    (if m.cleared then {} else groups - m.removed) + m.added
  }

  /** Whatever the account's groups are, the specs leave it with none of them if
      the edge was cleared and the unremoved ones otherwise, plus the added ones;
      and leaving the remove spec out of a cleared edge changes nothing. */
  lemma {:induction false} UpdateAlgebra(groups: set<int>, m: Pending, spec: EdgeChanges, removed: seq<int>)
    requires Describes(spec, m) && Members(removed) == m.removed
    ensures Apply(groups, spec) == Final(groups, m)
    ensures m.cleared ==> Apply(groups, EdgeChanges(spec.clear + [removed], spec.add)) == Apply(groups, spec)
  {
    if m.added != {} {
      assert spec.add[1..] == [];
    }
    if spec.clear != [] {
      assert spec.clear[1..] == [];
    }
    assert ApplyClears(groups, spec.clear) == if m.cleared then {} else groups - m.removed;
    assert forall g :: ApplyAdds(g, spec.add) == g + m.added;
    if m.cleared {
      var both := spec.clear + [removed];
      assert both[0] == [] && both[1..] == [removed] && [removed][1..] == [];
      assert ApplyClears(groups, both) == ApplyClears({}, [removed]) == {};
    }
  }

  // ------------------------------------------------------------------------
  // Calls on the mutation, in order
  // ------------------------------------------------------------------------

  datatype Call = Add(ids: seq<int>) | Remove(ids: seq<int>) | Clear | Reset

  function Step(m: Pending, c: Call): Pending {
    match c
    case Add(ids) => m.(added := m.added + Members(ids))
    case Remove(ids) => m.(added := m.added - Members(ids), removed := m.removed + Members(ids))
    case Clear => m.(cleared := true)
    case Reset => NOTHING_PENDING
  }

  /** The mutation after a sequence of calls. */
  function Recorded(calls: seq<Call>): Pending {
    if calls == [] then NOTHING_PENDING else Step(Recorded(calls[..|calls|-1]), calls[|calls|-1])
  }

  /** The groups if every call took effect on the account at once. */
  function InOrder(groups: set<int>, calls: seq<Call>): set<int> {
    if calls == [] then groups
    else
      var s := InOrder(groups, calls[..|calls|-1]);
      match calls[|calls|-1]
      case Add(ids) => s + Members(ids)
      case Remove(ids) => s - Members(ids)
      case Clear => {}
      case Reset => groups
  }

  /** The IDs that were waiting to be added when the edge was last cleared and that
      no later call mentions. */
  function Outlived(calls: seq<Call>): set<int> {
    if calls == [] then {}
    else
      var before := calls[..|calls|-1];
      match calls[|calls|-1]
      case Add(ids) => Outlived(before) - Members(ids)
      case Remove(ids) => Outlived(before) - Members(ids)
      case Clear => Recorded(before).added
      case Reset => {}
  }

  /** Saving has the effect of the calls in order, except that clearing the edge
      does not drop IDs waiting to be added: exactly those come on top. */
  lemma {:induction false} SavedIsInOrderPlusOutlived(groups: set<int>, calls: seq<Call>)
    ensures Final(groups, Recorded(calls)) == InOrder(groups, calls) + Outlived(calls)
    ensures InOrder(groups, calls) !! Outlived(calls)
    ensures Recorded(calls).cleared ==> Recorded(calls).added == InOrder(groups, calls) + Outlived(calls)
  {
    if calls != [] {
      SavedIsInOrderPlusOutlived(groups, calls[..|calls|-1]);
    }
  }

  /** So the calls take effect in order if and only if no ID outlives a clear. */
  lemma {:induction false} InOrderIffNothingOutlives(groups: set<int>, calls: seq<Call>, spec: EdgeChanges)
    requires Describes(spec, Recorded(calls))
    ensures Apply(groups, spec) == InOrder(groups, calls) <==> Outlived(calls) == {}
  {
    SavedIsInOrderPlusOutlived(groups, calls);
    var removed := SomeOrder(Recorded(calls).removed);
    UpdateAlgebra(groups, Recorded(calls), spec, removed);
  }

  lemma {:induction false} SomeOrder(s: set<int>) returns (ids: seq<int>)
    ensures Members(ids) == s
    decreases s
  {
    if s == {} {
      ids := [];
    } else {
      Inhabited(s);
      var id :| id in s;
      var rest := SomeOrder(s - {id});
      MembersExtended(rest, id);
      ids := rest + [id];
    }
  }

  /** Adding group 5 and then clearing leaves the account in group 5. */
  lemma {:induction false} ClearKeepsPendingAdds()
    ensures Final({1, 2}, Recorded([Add([5]), Clear])) == {5}
    ensures InOrder({1, 2}, [Add([5]), Clear]) == {}
  {
    assert [Add([5]), Clear][..1] == [Add([5])] && [Add([5])][..0] == [];
    assert Recorded([Add([5])]) == Pending({5}, {}, false);
  }
}
