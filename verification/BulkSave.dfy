/** `AccountCreateBulk.Save` on the heap, proved to be the run of BulkCreating. */
module BulkSaving {
  import opened Prelude
  import opened RowCodec
  import opened Entities
  import opened AccountCreating
  import opened BulkCreating
  import BulkChain

  /** What the closures of one `Save` share: the spec and node slices they fill
      in and the IDs the batch insert writes back into the specs. */
  class Chain {
    const builders: seq<AccountCreate>
    const rt: Runtime
    const db: Database
    const specs: array<Option<CreateSpec>>
    const nodes: array<Account?>
    const ids: array<Option<int>>

    constructor (builders: seq<AccountCreate>, rt: Runtime, db: Database)
      requires NoDup(builders)
      ensures this.builders == builders && this.rt == rt && this.db == db
      ensures fresh(specs) && fresh(nodes) && fresh(ids) && Sized() && Assigned(None)
      ensures forall j :: 0 <= j < |builders| ==> nodes[j] == null
    {
      this.builders, this.rt, this.db := builders, rt, db;
      specs := new Option<CreateSpec>[|builders|](_ => None);
      nodes := new Account?[|builders|](_ => null);
      ids := new Option<int>[|builders|](_ => None);
    }

    ghost predicate Sized() {
      specs.Length == nodes.Length == ids.Length == |builders| && NoDup(builders)
    }

    ghost function MutationsFrom(i: nat): set<AccountMutation>
      reads builders
    {
      set j | i <= j < |builders| :: builders[j].mutation
    }

    ghost function NodesFrom(i: nat): set<Account?>
      requires Sized()
      reads nodes
    {
      set j | i <= j < |builders| :: nodes[j]
    }

    /** The builders from `i` on still wait: their mutations are separate objects
        that are not done, and `bs` describes them. */
    ghost predicate Waiting(i: nat, bs: seq<Builder>)
      reads builders, MutationsFrom(i)
    {
      && |builders| == |bs|
      && (forall j :: i <= j < |builders| ==>
            !builders[j].mutation.done && bs[j].hooks == builders[j].hooks && bs[j].f == builders[j].mutation.f)
      && (forall j, l :: i <= j < l < |builders| ==> builders[j].mutation != builders[l].mutation)
    }

    /** The specs of the builders before `i` are built. */
    ghost predicate Built(i: nat, built: seq<CreateSpec>)
      requires Sized()
      reads specs
    {
      |built| == i <= |builders| && forall j :: 0 <= j < i ==> specs[j] == Some(built[j])
    }

    /** The IDs the last successful insert assigned, if there was one. */
    ghost predicate Assigned(list: Option<IDList>)
      requires Sized()
      reads ids
    {
      forall j :: 0 <= j < |builders| ==> ids[j] == if list.Some? && j < |list.value| then list.value[j] else None
    }

    /** Builder `j` once the run is over: its mutation is done or not, and a done
        one holds what it was done with and points at its node, which holds its
        fields and the ID assigned. */
    ghost predicate Settled(j: nat, done: map<nat, Fields>, list: Option<IDList>)
      requires Sized() && j < |builders|
      reads builders[j], builders[j].mutation, specs, nodes, nodes[j]
    {
      var m := builders[j].mutation;
      && (m.done <==> j in done)
      && (j in done ==>
            && m.f == done[j]
            && nodes[j] != null && m.id == nodes[j]
            && specs[j] == Some(SpecOf(m.f))
            && nodes[j].Row() == NodeOf(m.f).(ID := GivenID(list, j)))
    }

    /** `sqlgraph.BatchCreate` on the specs of all builders. */
    method BatchCreate(ghost built: seq<CreateSpec>)
      returns (err: Option<CreateError>, ghost trace: seq<Event>, inserts: seq<seq<CreateSpec>>)
      requires Sized() && Built(|builders|, built) && Assigned(None)
      modifies ids
      ensures var r := RunInsert(db, built);
              err == r.err && trace == r.trace && inserts == r.inserts && Assigned(r.ids)
      ensures trace == [Insert] && inserts == [built]
      ensures match db(built)
              case Err(msg) => err == Some(InsertFailed(msg)) && forall j :: 0 <= j < |builders| ==> ids[j] == None
              case Ok(list) =>
                && err.None?
                && forall j :: 0 <= j < |builders| ==> ids[j] == if j < |list| then list[j] else None
    {
      var all := [];
      for j := 0 to specs.Length
        invariant all == built[..j]
      {
        all := all + [specs[j].value];
      }
      assert all == built;
      trace, inserts := [Insert], [all];
      var answer := db(all);
      if answer.Err? {
        err := Some(InsertFailed(answer.error));
        return;
      }
      for j := 0 to ids.Length
        invariant forall l :: 0 <= l < j ==> ids[l] == if l < |answer.value| then answer.value[l] else None
      {
        ids[j] := if j < |answer.value| then answer.value[j] else None;
      }
      err := None;
    }

    /** The builder adopts the mutation it was handed and builds its spec. */
    method Adopt(i: nat, m: AccountMutation, ghost bs: seq<Builder>, ghost built: seq<CreateSpec>)
      returns (ghost spec: CreateSpec)
      requires Sized() && i < |builders| && Waiting(i + 1, bs) && m !in MutationsFrom(i + 1) && Built(i, built)
      modifies {builders[i]}`mutation, specs, nodes
      ensures builders[i].mutation == m && Waiting(i + 1, bs) && MutationsFrom(i + 1) == old(MutationsFrom(i + 1))
      ensures spec == SpecOf(m.f) && Built(i + 1, built + [spec])
      ensures nodes[i] != null && fresh(nodes[i]) && nodes[i].Row() == NodeOf(m.f)
      ensures forall j :: 0 <= j < |builders| && j != i ==> specs[j] == old(specs[j]) && nodes[j] == old(nodes[j])
    {
      assert forall j :: i < j < |builders| ==> builders[j] != builders[i];
      builders[i].mutation := m;
      var node, s := BuildSpec(builders[i].mutation.f);
      nodes[i], specs[i] := node, Some(s);
      spec := s;
    }

    /** Back from the rest of the chain: the mutation gets its ID and is done. */
    method Finish(i: nat, m: AccountMutation, node: Account, ghost done: map<nat, Fields>,
                  ghost after: map<nat, Fields>,
                  ghost list: Option<IDList>)
      requires Sized() && i < |builders| && builders[i].mutation == m && Assigned(list)
      requires nodes[i] == node && specs[i] == Some(SpecOf(m.f)) && node.Row() == NodeOf(m.f)
      requires after == done[i := m.f]
      requires forall j :: i < j < |builders| ==>
                 builders[j].mutation != m && nodes[j] != node && Settled(j, done, list)
      modifies m`id, m`done, node`ID
      ensures forall j :: i <= j < |builders| ==> Settled(j, after, list)
    {
      m.id := node;
      if ids[i].Some? {
        node.ID := ids[i].value;
      }
      m.done := true;
    }

    /** What a run from builder `i` on, handed mutation `m`, did to the heap. */
    twostate predicate Ran(i: nat, m: AccountMutation, r: Outcome)
      requires Sized()
      reads specs, nodes, ids, builders, MutationsFrom(i), NodesFrom(i)
    {
      && Assigned(r.ids)
      && (forall j :: 0 <= j < i && j < |builders| ==> specs[j] == old(specs[j]) && nodes[j] == old(nodes[j]))
      && (forall j :: i <= j < |builders| ==> Settled(j, r.done, r.ids))
      && (forall j :: i <= j < |builders| ==> nodes[j] == null || fresh(nodes[j]))
      && (forall j :: i <= j < |builders| ==>
            fresh(builders[j].mutation) || builders[j].mutation == m || builders[j].mutation in old(MutationsFrom(i)))
    }

    /** The whole chain, from the first mutator. */
    method Start(ghost bs: seq<Builder>)
      returns (err: Option<CreateError>, ghost trace: seq<Event>, inserts: seq<seq<CreateSpec>>)
      requires Sized() && 0 < |builders| == |bs| && Assigned(None) && Waiting(0, bs)
      requires forall j :: 0 <= j < |builders| ==> nodes[j] == null
      modifies specs, nodes, ids, builders`mutation, MutationsFrom(0)
      ensures var r := RunAll(rt, db, bs);
              && err == r.err && trace == r.trace && inserts == r.inserts
              && forall j :: 0 <= j < |builders| ==> Settled(j, r.done, r.ids)
    {
      assert builders[0..] == builders;
      err, trace, inserts := Next(0, bs, [], RunAll(rt, db, bs));
    }

    /** Runs hooks `h..` of builder `i` on mutation `m`, then its core. */
    method Mutate(i: nat, h: nat, m: AccountMutation, ghost bs: seq<Builder>, ghost built: seq<CreateSpec>,
                  ghost r: Outcome)
      returns (err: Option<CreateError>, ghost trace: seq<Event>, inserts: seq<seq<CreateSpec>>)
      requires Sized() && i < |builders| == |bs| && Built(i, built) && Assigned(None)
      requires Waiting(i + 1, bs) && bs[i].hooks == builders[i].hooks && h <= |bs[i].hooks|
      requires forall j :: i <= j < |builders| ==> nodes[j] == null
      requires m !in MutationsFrom(i + 1) && builders[i].mutation !in MutationsFrom(i + 1)
      requires !m.done && !builders[i].mutation.done
      requires r == Run(rt, db, bs, i, h, m.f, builders[i].mutation.f, m == builders[i].mutation, built)
      modifies specs, nodes, ids, builders[i..]`mutation, MutationsFrom(i), m
      ensures err == r.err && trace == r.trace && inserts == r.inserts && Ran(i, m, r)
      decreases |builders| - i, |builders[i].hooks| - h, 3
    {
      if h == |builders[i].hooks| {
        err, trace, inserts := Core(i, m, bs, built, r);
        return;
      }
      var hook := builders[i].hooks[h];
      match hook.pre(m.f) {
        case Pass(f) =>
          ghost var own := if m == builders[i].mutation then f else builders[i].mutation.f;
          ghost var inner := Run(rt, db, bs, i, h + 1, f, own, m == builders[i].mutation, built);
          m.f := f;
          err, trace, inserts := Mutate(i, h + 1, m, bs, built, inner);
          err, trace := hook.post(err), [Enter(i, h)] + trace + [Exit(i, h)];
        case Substitute(f) =>
          ghost var inner := Run(rt, db, bs, i, h + 1, f, builders[i].mutation.f, false, built);
          var other := new AccountMutation(f);
          err, trace, inserts := Mutate(i, h + 1, other, bs, built, inner);
          err, trace := hook.post(err), [Enter(i, h)] + trace + [Exit(i, h)];
        case Refuse(e) =>
          err, trace, inserts := Some(e), [Enter(i, h), Exit(i, h)], [];
        case Answer =>
          err, trace, inserts := None, [Enter(i, h), Exit(i, h)], [];
      }
    }

    /** The mutate function of builder `i`, below all its hooks. */
    method Core(i: nat, m: AccountMutation, ghost bs: seq<Builder>, ghost built: seq<CreateSpec>, ghost r: Outcome)
      returns (err: Option<CreateError>, ghost trace: seq<Event>, inserts: seq<seq<CreateSpec>>)
      requires Sized() && i < |builders| == |bs| && Built(i, built) && Assigned(None)
      requires Waiting(i + 1, bs) && bs[i].hooks == builders[i].hooks
      requires forall j :: i <= j < |builders| ==> nodes[j] == null
      requires m !in MutationsFrom(i + 1) && builders[i].mutation !in MutationsFrom(i + 1)
      requires !m.done && !builders[i].mutation.done
      requires r == Run(rt, db, bs, i, |bs[i].hooks|, m.f, builders[i].mutation.f, m == builders[i].mutation, built)
      modifies specs, nodes, ids, builders[i..]`mutation, MutationsFrom(i), m
      ensures err == r.err && trace == r.trace && inserts == r.inserts && Ran(i, m, r)
      decreases |builders| - i, 0, 2
    {
      err := Check(rt, builders[i].mutation.f);
      if err.Some? {
        trace, inserts := [], [];
        return;
      }
      ghost var next := if i + 1 < |bs|
                              then Run(rt, db, bs, i + 1, 0, bs[i+1].f, bs[i+1].f, true, built + [SpecOf(m.f)])
                        else RunInsert(db, built + [SpecOf(m.f)]);
      if i + 1 < |bs| {
        DoneRange(rt, db, bs, i + 1, 0, bs[i+1].f, bs[i+1].f, true, built + [SpecOf(m.f)]);
      }
      err, trace, inserts := Proceed(i, m, bs, built, next, r);
    }

    /** What adopting a mutation and running the rest of the chain did. */
    twostate predicate Descended(i: nat, m: AccountMutation, next: Outcome)
      requires Sized() && i < |builders|
      reads specs, nodes, ids, builders, MutationsFrom(i), m, NodesFrom(i)
    {
      && Assigned(next.ids)
      && builders[i].mutation == m && m.done == old(m.done) && m.f == old(m.f)
      && nodes[i] != null && fresh(nodes[i]) && nodes[i].Row() == NodeOf(m.f) && specs[i] == Some(SpecOf(m.f))
      && (forall j :: 0 <= j < i ==> specs[j] == old(specs[j]) && nodes[j] == old(nodes[j]))
      && (forall j :: i < j < |builders| ==> Settled(j, next.done, next.ids) && nodes[j] != nodes[i])
      && (forall j :: i < j < |builders| ==> nodes[j] == null || fresh(nodes[j]))
      && (forall j :: i < j < |builders| ==>
            builders[j].mutation != m &&
            (fresh(builders[j].mutation) || builders[j].mutation in old(MutationsFrom(i + 1))))
    }

    method Descend(i: nat, m: AccountMutation, ghost bs: seq<Builder>, ghost built: seq<CreateSpec>,
                   ghost next: Outcome)
      returns (err: Option<CreateError>, ghost trace: seq<Event>, inserts: seq<seq<CreateSpec>>)
      requires Sized() && i < |builders| == |bs| && Built(i, built) && Assigned(None)
      requires Waiting(i + 1, bs) && m !in MutationsFrom(i + 1)
      requires var specs := built + [SpecOf(m.f)];
               next == if i + 1 < |bs| then Run(rt, db, bs, i + 1, 0, bs[i+1].f, bs[i+1].f, true, specs)
                       else RunInsert(db, specs)
      requires forall j :: i < j < |builders| ==> nodes[j] == null
      modifies specs, nodes, ids, builders[i..]`mutation, MutationsFrom(i + 1)
      ensures err == next.err && trace == next.trace && inserts == next.inserts
      ensures Descended(i, m, next)
      decreases |builders| - i, 0, 0
    {
      ghost var spec := Adopt(i, m, bs, built);
      err, trace, inserts := Next(i + 1, bs, built + [spec], next);
    }

    /** Below a passed check: adopt, hand over and, unless that failed, finish. */
    method Proceed(i: nat, m: AccountMutation, ghost bs: seq<Builder>, ghost built: seq<CreateSpec>,
                   ghost next: Outcome, ghost r: Outcome)
      returns (err: Option<CreateError>, ghost trace: seq<Event>, inserts: seq<seq<CreateSpec>>)
      requires Sized() && i < |builders| == |bs| && Built(i, built) && Assigned(None)
      requires Waiting(i + 1, bs) && m !in MutationsFrom(i + 1) && !m.done
      requires var specs := built + [SpecOf(m.f)];
               next == if i + 1 < |bs| then Run(rt, db, bs, i + 1, 0, bs[i+1].f, bs[i+1].f, true, specs)
                       else RunInsert(db, specs)
      requires i !in next.done && forall j :: i < j < |builders| ==> nodes[j] == null
      requires r.ids == next.ids && r.done == if next.err.Some? then next.done else next.done[i := m.f]
      modifies specs, nodes, ids, builders[i..]`mutation, MutationsFrom(i + 1), m
      ensures err == next.err && trace == next.trace && inserts == next.inserts
      ensures Ran(i, m, r)
      decreases |builders| - i, 0, 1
    {
      assert MutationsFrom(i + 1) <= MutationsFrom(i);
      err, trace, inserts := Descend(i, m, bs, built, next);
      if err.None? {
        Finish(i, m, nodes[i], next.done, r.done, r.ids);
      }
    }

    /** Hands over to the next builder, or inserts after the last one. */
    method Next(i: nat, ghost bs: seq<Builder>, ghost built: seq<CreateSpec>, ghost r: Outcome)
      returns (err: Option<CreateError>, ghost trace: seq<Event>, inserts: seq<seq<CreateSpec>>)
      requires Sized() && i <= |builders| == |bs| && Built(i, built) && Assigned(None) && Waiting(i, bs)
      requires forall j :: i <= j < |builders| ==> nodes[j] == null
      requires r == if i < |bs| then Run(rt, db, bs, i, 0, bs[i].f, bs[i].f, true, built) else RunInsert(db, built)
      modifies specs, nodes, ids, builders[i..]`mutation, MutationsFrom(i)
      ensures err == r.err && trace == r.trace && inserts == r.inserts
      ensures Assigned(r.ids)
      ensures forall j :: 0 <= j < i ==> specs[j] == old(specs[j]) && nodes[j] == old(nodes[j])
      ensures forall j :: i <= j < |builders| ==>
                && Settled(j, r.done, r.ids) && (nodes[j] == null || fresh(nodes[j]))
                && (fresh(builders[j].mutation) || builders[j].mutation in old(MutationsFrom(i)))
      decreases |builders| - i, if i < |builders| then |builders[i].hooks| else 0, 4
    {
      if i < |builders| {
        err, trace, inserts := Mutate(i, 0, builders[i].mutation, bs, built, r);
      } else {
        err, trace, inserts := BatchCreate(built);
      }
    }
  }

  class AccountCreateBulk {
    var err: Option<CreateError>
    var builders: seq<AccountCreate>

    constructor (builders: seq<AccountCreate>)
      ensures this.builders == builders && err.None?
    {
      this.builders, err := builders, None;
    }

    ghost function Mutations(): set<AccountMutation>
      reads this, builders
    {
      set b | b in builders :: b.mutation
    }

    /** The builders are separate, with separate mutations that were not saved before. */
    ghost predicate Separate()
      reads this, builders, Mutations()
    {
      && NoDup(builders)
      && (forall j :: 0 <= j < |builders| ==> !builders[j].mutation.done)
      && (forall j, l :: 0 <= j < l < |builders| ==> builders[j].mutation != builders[l].mutation)
    }

    /** The builders as the chain will meet them, their defaults set. */
    ghost function Described(rt: Runtime, k: nat): (bs: seq<Builder>)
      requires k <= |builders|
      reads this, builders, Mutations()
      ensures |bs| == k
      ensures forall j :: 0 <= j < k ==> bs[j] == Builder(Defaulted(rt, builders[j].mutation.f).0, builders[j].hooks)
    {
      if k == 0 then []
      else Described(rt, k - 1) + [Builder(Defaulted(rt, builders[k-1].mutation.f).0, builders[k-1].hooks)]
    }

    /** Sets the defaults of every builder and discards the errors. */
    method DefaultAll(rt: Runtime)
      requires Separate()
      modifies Mutations()
      ensures Separate()
      ensures forall j :: 0 <= j < |builders| ==> builders[j].mutation.f == Defaulted(rt, old(builders[j].mutation.f)).0
    {
      for i := 0 to |builders|
        invariant Separate()
        invariant forall j :: 0 <= j < i ==> builders[j].mutation.f == Defaulted(rt, old(builders[j].mutation.f)).0
        invariant forall j :: i <= j < |builders| ==> builders[j].mutation.f == old(builders[j].mutation.f)
      {
        assert builders[i] in builders && builders[i].mutation in Mutations();
        var discarded := builders[i].Defaults(rt);
      }
    }

    /** The builders and, when it was successful, the result of a run with this
        outcome. The mutations marked done hold what was inserted for them, and each
        points at a node that holds its fields and the ID assigned to it. */
    ghost predicate SavedAs(out: Outcome, r: Result<seq<Account?>, CreateError>)
      reads this, builders, Mutations(), Targets()
    {
      && (out.err.Some? ==> r == Err(out.err.value))
      && (out.err.None? ==> r.Ok? && |r.value| == |builders|)
      && (out.inserts != [] ==> |out.inserts[0]| == |builders|)
      && forall j :: 0 <= j < |builders| ==> SavedOne(j, out, r)
    }

    ghost predicate SavedOne(j: nat, out: Outcome, r: Result<seq<Account?>, CreateError>)
      requires j < |builders|
      reads this, builders, Mutations(), Targets()
    {
      var m := builders[j].mutation;
      && (m.done <==> j in out.done)
      && (j in out.done ==>
            && m.f == out.done[j]
            && (out.inserts != [] ==> j < |out.inserts[0]| && out.inserts[0][j] == SpecOf(m.f))
            && m.id != null && m.id.Row() == NodeOf(m.f).(ID := GivenID(out.ids, j))
            && (r.Ok? ==> j < |r.value| && r.value[j] == m.id))
    }

    /** The ID of every done mutation is the one the database assigned at its builder's
        position, and zero where it assigned none or no insert succeeded. */
    ghost predicate Numbered(db: Database, inserts: seq<seq<CreateSpec>>)
      reads this, builders, Mutations(), Targets()
    {
      var ids := if inserts != [] && db(inserts[0]).Ok? then db(inserts[0]).value else [];
      forall j :: 0 <= j < |builders| && builders[j].mutation.done ==>
        && builders[j].mutation.id != null
        && builders[j].mutation.id.ID == if j < |ids| && ids[j].Some? then ids[j].value else 0
    }

    ghost function Targets(): set<Account?>
      reads this, builders, Mutations()
    {
      set m | m in Mutations() :: m.id
    }

    /** `Save`: the run of the chain decides the error, the inserts, the order of
        the hooks and which mutations are done; every done
        mutation holds what was inserted for it and its ID is that of its node, even
        when an error is returned, and on success these nodes are the result. */
    method Save(rt: Runtime, db: Database)
      returns (r: Result<seq<Account?>, CreateError>, ghost trace: seq<Event>, inserts: seq<seq<CreateSpec>>)
      requires Separate()
      modifies builders, Mutations()
      ensures err.Some? ==> r == Err(err.value) && inserts == []
      ensures err.None? ==>
                var out := RunAll(rt, db, old(Described(rt, |builders|)));
                trace == out.trace && inserts == out.inserts && SavedAs(out, r)
      ensures err.None? ==> Numbered(db, inserts)
    {
      trace, inserts := [], [];
      if err.Some? {
        return Err(err.value), [], [];
      }
      ghost var bs := Described(rt, |builders|);
      DefaultAll(rt);
      r, trace, inserts := RunChain(rt, db, bs);
      BulkChain.AssignedIDs(rt, db, bs);
      SavedIsNumbered(RunAll(rt, db, bs), r, db);
    }

    lemma {:induction false} SavedIsNumbered(out: Outcome, r: Result<seq<Account?>, CreateError>, db: Database)
      requires SavedAs(out, r)
      requires out.ids == if out.inserts != [] && db(out.inserts[0]).Ok? then Some(db(out.inserts[0]).value) else None
      ensures Numbered(db, out.inserts)
    {
      forall j | 0 <= j < |builders| && builders[j].mutation.done
        ensures builders[j].mutation.id != null && builders[j].mutation.id.Row().ID == GivenID(out.ids, j)
      {
        assert SavedOne(j, out, r);
      }
    }

    method RunChain(rt: Runtime, db: Database, ghost bs: seq<Builder>)
      returns (r: Result<seq<Account?>, CreateError>, ghost trace: seq<Event>, inserts: seq<seq<CreateSpec>>)
      requires Separate() && |bs| == |builders|
      requires forall j :: 0 <= j < |builders| ==> bs[j] == Builder(builders[j].mutation.f, builders[j].hooks)
      modifies builders, Mutations()
      ensures var out := RunAll(rt, db, bs);
              trace == out.trace && inserts == out.inserts && SavedAs(out, r)
    {
      BulkChain.DoneIsInserted(rt, db, bs);
      var chain := new Chain(builders, rt, db);
      var e: Option<CreateError> := None;
      trace, inserts := [], [];
      if |builders| > 0 {
        e, trace, inserts := chain.Start(bs);
      }
      r := if e.Some? then Err(e.value) else Ok(chain.nodes[..]);
      ghost var out := RunAll(rt, db, bs);
      forall j | 0 <= j < |builders|
        ensures SavedOne(j, out, r)
      {
        SettledIsSaved(chain, j, out, r);
      }
    }

    lemma {:induction false} SettledIsSaved(chain: Chain, j: nat, out: Outcome, r: Result<seq<Account?>, CreateError>)
      requires chain.Sized() && chain.builders == builders && j < |builders|
      requires chain.Settled(j, out.done, out.ids)
      requires out.inserts != [] ==>
                 forall l <- out.done.Keys :: l < |out.inserts[0]| && out.inserts[0][l] == SpecOf(out.done[l])
      requires r.Ok? ==> r.value == chain.nodes[..]
      ensures SavedOne(j, out, r)
    {
      if j in out.done {
        assert j in out.done.Keys;
      }
    }
  }

  /** The ID node `j` ends up with: the assigned one, or zero. */
  function GivenID(list: Option<IDList>, j: nat): int {
    if list.Some? && j < |list.value| && list.value[j].Some? then list.value[j].value else 0
  }
}
