/** What a run of the bulk-create chain guarantees. */
module BulkChain {
  import opened Prelude
  import opened RowCodec
  import opened AccountCreating
  import opened BulkCreating

  // ------------------------------------------------------------------------
  // The trace is well nested
  // ------------------------------------------------------------------------

  /** All hooks from hook `h` of builder `i` on, entered in order. */
  function Enters(bs: seq<Builder>, i: nat, h: nat): seq<Event>
    requires i < |bs| && h <= |bs[i].hooks|
    decreases |bs| - i, |bs[i].hooks| - h
  {
    if h < |bs[i].hooks| then [Enter(i, h)] + Enters(bs, i, h + 1)
    else if i + 1 < |bs| then Enters(bs, i + 1, 0)
    else []
  }

  /** The exits that match some enters, innermost first. */
  function Mirror(enters: seq<Event>): seq<Event> {
    if enters == [] then []
    else
      Mirror(enters[1..]) + match enters[0] case Enter(i, h) => [Exit(i, h)] case e => [e]
  }

  /** A run that entered the first `k` of these hooks, inserted at most once and
      only after entering all of them, and left the ones it entered in reverse. */
  ghost predicate Nested(r: Outcome, enters: seq<Event>, k: nat) {
    && k <= |enters|
    && r.trace == enters[..k] + (if r.inserts == [] then [] else [Insert]) + Mirror(enters[..k])
    && |r.inserts| <= 1
    && (r.inserts != [] ==> k == |enters|)
    && (r.ids.Some? ==> r.inserts != [])
  }

  lemma {:induction false} NestedWrap(r: Outcome, rest: seq<Event>, k: nat, i: nat, h: nat,
                                      post: Option<CreateError> -> Option<CreateError>)
    requires Nested(r, rest, k)
    ensures Nested(Wrap(i, h, post, r), [Enter(i, h)] + rest, k + 1)
  {
    var e, mid := [Enter(i, h)], if r.inserts == [] then [] else [Insert];
    var enters := e + rest;
    assert enters[..k+1] == e + rest[..k];
    assert (e + rest[..k])[1..] == rest[..k];
    assert Mirror(enters[..k+1]) == Mirror(rest[..k]) + [Exit(i, h)];
    assert e + (rest[..k] + mid + Mirror(rest[..k])) + [Exit(i, h)] ==
           (e + rest[..k]) + mid + (Mirror(rest[..k]) + [Exit(i, h)]);
  }

  lemma {:induction false} NestedAlone(i: nat, h: nat, rest: seq<Event>, err: Option<CreateError>)
    ensures Nested(Outcome(err, [Enter(i, h), Exit(i, h)], [], None, map[]), [Enter(i, h)] + rest, 1)
  {
    assert ([Enter(i, h)] + rest)[..1] == [Enter(i, h)];
    assert Mirror([Enter(i, h)]) == [Exit(i, h)] by { assert Mirror([]) == []; }
  }

  /** A run that enters no hook: a failed check, or the insert. */
  lemma {:induction false} NestedCore(r: Outcome, enters: seq<Event>)
    requires if r.inserts == [] then r.trace == [] && r.ids.None?
             else |r.inserts| == 1 && r.trace == [Insert] && enters == []
    ensures Nested(r, enters, 0)
  {
    assert Mirror([]) == [];
    assert enters[..0] == [];
  }

  /** Whatever the hooks do, the chain enters hooks in order up to some point,
      runs at most one batch insert and only once every hook was entered, and then
      leaves exactly the hooks it entered, in reverse order. */
  lemma {:induction false} TraceIsNested(rt: Runtime, db: Database, bs: seq<Builder>, i: nat, h: nat,
                                         passed: Fields, own: Fields, same: bool, specs: seq<CreateSpec>)
    returns (k: nat)
    requires i < |bs| && h <= |bs[i].hooks|
    ensures Nested(Run(rt, db, bs, i, h, passed, own, same, specs), Enters(bs, i, h), k)
    decreases |bs| - i, |bs[i].hooks| - h
  {
    if h < |bs[i].hooks| {
      var hook, rest := bs[i].hooks[h], Enters(bs, i, h + 1);
      match hook.pre(passed)
      case Pass(f) =>
        k := TraceIsNested(rt, db, bs, i, h + 1, f, if same then f else own, same, specs);
        NestedWrap(Run(rt, db, bs, i, h + 1, f, if same then f else own, same, specs), rest, k, i, h, hook.post);
        k := k + 1;
      case Substitute(f) =>
        k := TraceIsNested(rt, db, bs, i, h + 1, f, own, false, specs);
        NestedWrap(Run(rt, db, bs, i, h + 1, f, own, false, specs), rest, k, i, h, hook.post);
        k := k + 1;
      case Refuse(e) =>
        NestedAlone(i, h, rest, Some(e));
        k := 1;
      case Answer =>
        NestedAlone(i, h, rest, None);
        k := 1;
    } else if Check(rt, own).None? && i + 1 < |bs| {
      k := TraceIsNested(rt, db, bs, i + 1, 0, bs[i+1].f, bs[i+1].f, true, specs + [SpecOf(passed)]);
    } else {
      k := 0;
      NestedCore(Run(rt, db, bs, i, h, passed, own, same, specs), Enters(bs, i, h));
    }
  }

  // ------------------------------------------------------------------------
  // What is inserted
  // ------------------------------------------------------------------------

  /** The fields hooks `h..` hand down to the core of a builder, and the fields of
      the builder's own mutation by then. */
  function HandedDown(hooks: seq<Hook>, h: nat, passed: Fields, own: Fields, same: bool): (Fields, Fields)
    requires h <= |hooks|
    decreases |hooks| - h
  {
    if h == |hooks| then (passed, own)
    else
      match hooks[h].pre(passed)
      case Pass(f) => HandedDown(hooks, h + 1, f, if same then f else own, same)
      case Substitute(f) => HandedDown(hooks, h + 1, f, own, false)
      case _ => (passed, own)
  }

  function Handed(b: Builder): (Fields, Fields) {
    HandedDown(b.hooks, 0, b.f, b.f, true)
  }

  /** One spec per builder from `i` on, made of what its hooks hand down. */
  function SpecsFrom(bs: seq<Builder>, i: nat): (r: seq<CreateSpec>)
    requires i <= |bs|
    ensures |r| == |bs| - i
    ensures forall j :: 0 <= j < |r| ==> r[j] == SpecOf(Handed(bs[i + j]).0)
  {
    seq(|bs| - i, j requires 0 <= j < |bs| - i => SpecOf(Handed(bs[i + j]).0))
  }

  /** Every hook from `h` on hands some mutation down, so the core is reached. */
  predicate HandsDown(hooks: seq<Hook>, h: nat, passed: Fields)
    requires h <= |hooks|
    decreases |hooks| - h
  {
    h == |hooks| ||
    match hooks[h].pre(passed)
    case Pass(f) => HandsDown(hooks, h + 1, f)
    case Substitute(f) => HandsDown(hooks, h + 1, f)
    case _ => false
  }

  /** The chain gets past hooks `h..`: they hand down, and the builder's own
      mutation passes its check. */
  predicate Proceeds(rt: Runtime, hooks: seq<Hook>, h: nat, passed: Fields, own: Fields, same: bool)
    requires h <= |hooks|
  {
    HandsDown(hooks, h, passed) && Check(rt, HandedDown(hooks, h, passed, own, same).1).None?
  }

  /** The chain gets past every builder from `i` on. */
  predicate AllProceed(rt: Runtime, bs: seq<Builder>, i: nat) {
    forall j :: i <= j < |bs| ==> Proceeds(rt, bs[j].hooks, 0, bs[j].f, bs[j].f, true)
  }

  /** The batch insert of these specs ran or not, and it is the only one. */
  ghost predicate Inserted(r: Outcome, db: Database, specs: seq<CreateSpec>, ran: bool) {
    && r.inserts == (if ran then [specs] else [])
    && r.ids == if ran && db(specs).Ok? then Some(db(specs).value) else None
  }

  /** The batch insert runs if and only if every builder's hooks hand down and
      every builder's own mutation passes its check. It then gets one spec per
      builder, in builder order, each made of what the builder's hooks handed down. */
  lemma {:induction false} WhatIsInserted(rt: Runtime, db: Database, bs: seq<Builder>, i: nat, h: nat,
                                          passed: Fields, own: Fields, same: bool, specs: seq<CreateSpec>)
    requires i < |bs| && h <= |bs[i].hooks|
    ensures var down := HandedDown(bs[i].hooks, h, passed, own, same).0;
            Inserted(Run(rt, db, bs, i, h, passed, own, same, specs), db, specs + [SpecOf(down)] + SpecsFrom(bs, i + 1),
                     Proceeds(rt, bs[i].hooks, h, passed, own, same) && AllProceed(rt, bs, i + 1))
    decreases |bs| - i, |bs[i].hooks| - h
  {
    if h < |bs[i].hooks| {
      match bs[i].hooks[h].pre(passed)
      case Pass(f) => WhatIsInserted(rt, db, bs, i, h + 1, f, if same then f else own, same, specs);
      case Substitute(f) => WhatIsInserted(rt, db, bs, i, h + 1, f, own, false, specs);
      case Refuse(_) =>
      case Answer =>
    } else if Check(rt, own).None? {
      var built := specs + [SpecOf(passed)];
      if i + 1 < |bs| {
        WhatIsInserted(rt, db, bs, i + 1, 0, bs[i+1].f, bs[i+1].f, true, built);
      }
      InsertedCore(rt, db, bs, i, passed, own, same, specs);
    }
  }

  /** Below the hooks of a builder whose own mutation passed. */
  lemma {:induction false} InsertedCore(rt: Runtime, db: Database, bs: seq<Builder>, i: nat,
                                        passed: Fields, own: Fields, same: bool, specs: seq<CreateSpec>)
    requires i < |bs| && Check(rt, own).None?
    requires i + 1 < |bs| ==>
               var built, b := specs + [SpecOf(passed)], bs[i+1];
               Inserted(Run(rt, db, bs, i + 1, 0, b.f, b.f, true, built), db,
                        built + [SpecOf(Handed(b).0)] + SpecsFrom(bs, i + 2),
                        Proceeds(rt, b.hooks, 0, b.f, b.f, true) && AllProceed(rt, bs, i + 2))
    ensures Inserted(Run(rt, db, bs, i, |bs[i].hooks|, passed, own, same, specs), db,
                     specs + [SpecOf(passed)] + SpecsFrom(bs, i + 1), AllProceed(rt, bs, i + 1))
  {
    var built := specs + [SpecOf(passed)];
    if i + 1 < |bs| {
      SpecsBelow(bs, i + 1);
      ProceedBelow(rt, bs, i + 1);
      var first := [SpecOf(Handed(bs[i+1]).0)];
      assert built + (first + SpecsFrom(bs, i + 2)) == built + first + SpecsFrom(bs, i + 2);
    } else {
      assert built + SpecsFrom(bs, i + 1) == built;
    }
  }

  /** One builder more: what the chain from builder `i` on hands down comes first. */
  lemma {:induction false} SpecsBelow(bs: seq<Builder>, i: nat)
    requires i < |bs|
    ensures SpecsFrom(bs, i) == [SpecOf(Handed(bs[i]).0)] + SpecsFrom(bs, i + 1)
  {
    var all, rest := SpecsFrom(bs, i), SpecsFrom(bs, i + 1);
    forall j | 1 <= j < |all|
      ensures all[j] == rest[j - 1]
    {
      assert bs[i + j] == bs[i + 1 + (j - 1)];
    }
  }

  lemma {:induction false} ProceedBelow(rt: Runtime, bs: seq<Builder>, i: nat)
    requires i < |bs|
    ensures AllProceed(rt, bs, i) <==>
            Proceeds(rt, bs[i].hooks, 0, bs[i].f, bs[i].f, true) && AllProceed(rt, bs, i + 1)
  {
  }

  /** The same of the whole chain. */
  lemma {:induction false} InsertIsExact(rt: Runtime, db: Database, bs: seq<Builder>)
    requires bs != []
    ensures Inserted(RunAll(rt, db, bs), db, SpecsFrom(bs, 0), AllProceed(rt, bs, 0))
  {
    WhatIsInserted(rt, db, bs, 0, 0, bs[0].f, bs[0].f, true, []);
    SpecsBelow(bs, 0);
    ProceedBelow(rt, bs, 0);
    assert [] + [SpecOf(Handed(bs[0]).0)] == [SpecOf(Handed(bs[0]).0)];
  }

  /** The done mutations hold what was handed down, `down` for builder `i`. */
  ghost predicate DoneHanded(done: map<nat, Fields>, bs: seq<Builder>, i: nat, down: Fields) {
    forall j <- done.Keys :: i <= j < |bs| && done[j] == if j == i then down else Handed(bs[j]).0
  }

  /** A mutation that was marked done holds what its builder's hooks handed down. */
  lemma {:induction false} DoneIsHanded(rt: Runtime, db: Database, bs: seq<Builder>, i: nat, h: nat,
                                        passed: Fields, own: Fields, same: bool, specs: seq<CreateSpec>)
    requires i < |bs| && h <= |bs[i].hooks|
    ensures var done := Run(rt, db, bs, i, h, passed, own, same, specs).done;
            DoneHanded(done, bs, i, HandedDown(bs[i].hooks, h, passed, own, same).0)
    decreases |bs| - i, |bs[i].hooks| - h
  {
    if h < |bs[i].hooks| {
      match bs[i].hooks[h].pre(passed)
      case Pass(f) => DoneIsHanded(rt, db, bs, i, h + 1, f, if same then f else own, same, specs);
      case Substitute(f) => DoneIsHanded(rt, db, bs, i, h + 1, f, own, false, specs);
      case Refuse(_) =>
      case Answer =>
    } else if Check(rt, own).None? && i + 1 < |bs| {
      DoneIsHanded(rt, db, bs, i + 1, 0, bs[i+1].f, bs[i+1].f, true, specs + [SpecOf(passed)]);
    }
  }

  /** Whatever the hooks do, what the insert got for a builder whose mutation was
      marked done is the spec of that mutation. */
  lemma {:induction false} DoneIsInserted(rt: Runtime, db: Database, bs: seq<Builder>)
    ensures var r := RunAll(rt, db, bs);
            r.inserts != [] ==>
              |r.inserts| == 1 && |r.inserts[0]| == |bs| &&
              forall j <- r.done.Keys :: j < |bs| && r.inserts[0][j] == SpecOf(r.done[j])
  {
    if bs != [] && RunAll(rt, db, bs).inserts != [] {
      InsertIsExact(rt, db, bs);
      DoneIsHanded(rt, db, bs, 0, 0, bs[0].f, bs[0].f, true, []);
      forall j <- RunAll(rt, db, bs).done.Keys
        ensures SpecsFrom(bs, 0)[j] == SpecOf(RunAll(rt, db, bs).done[j])
      {
      }
    }
  }

  /** The IDs of a run are those the database answered its insert with. */
  lemma {:induction false} AssignedIDs(rt: Runtime, db: Database, bs: seq<Builder>)
    ensures var r := RunAll(rt, db, bs);
            r.ids == if r.inserts != [] && db(r.inserts[0]).Ok? then Some(db(r.inserts[0]).value) else None
  {
    if bs != [] {
      InsertIsExact(rt, db, bs);
    }
  }

  // ------------------------------------------------------------------------
  // All or nothing
  // ------------------------------------------------------------------------

  /** The hook hands its mutation on or refuses with an error, and never turns an
      error into success. */
  ghost predicate Propagates(hook: Hook) {
    (forall f :: !hook.pre(f).Answer?) && (forall e :: hook.post(Some(e)).Some?)
  }

  ghost predicate AllPropagate(bs: seq<Builder>) {
    forall j, l :: 0 <= j < |bs| && 0 <= l < |bs[j].hooks| ==> Propagates(bs[j].hooks[l])
  }

  /** Hooks `h..` do not fail once the next mutator succeeded. */
  predicate KeepSuccess(hooks: seq<Hook>, h: nat) {
    forall l :: h <= l < |hooks| ==> hooks[l].post(None).None?
  }

  predicate KeepFrom(bs: seq<Builder>, i: nat) {
    forall j :: i <= j < |bs| ==> KeepSuccess(bs[j].hooks, 0)
  }

  /** No hook of a builder after `j` fails late. */
  predicate LaterKeep(bs: seq<Builder>, j: nat) {
    forall l :: j < l < |bs| ==> KeepSuccess(bs[l].hooks, 0)
  }

  /** Without a successful insert there is an error and nothing is marked done.
      After one, a builder is done exactly when no hook of a later builder fails
      late, and the run succeeds exactly when no hook at all does. */
  ghost predicate Decided(r: Outcome, bs: seq<Builder>, i: nat, h: nat)
    requires i < |bs|
  {
    if r.ids.None? then r.err.Some? && r.done == map[]
    else
      && (forall j: nat :: j in r.done <==> i <= j < |bs| && LaterKeep(bs, j))
      && (r.err.None? <==> KeepSuccess(bs[i].hooks, h) && KeepFrom(bs, i + 1))
  }

  lemma {:induction false} DecidedWrap(r: Outcome, bs: seq<Builder>, i: nat, h: nat)
    requires i < |bs| && h < |bs[i].hooks| && Propagates(bs[i].hooks[h]) && Decided(r, bs, i, h + 1)
    ensures Decided(Wrap(i, h, bs[i].hooks[h].post, r), bs, i, h)
  {
    assert KeepSuccess(bs[i].hooks, h) <==> bs[i].hooks[h].post(None).None? && KeepSuccess(bs[i].hooks, h + 1);
  }

  lemma {:induction false} DecidedCore(r: Outcome, bs: seq<Builder>, i: nat, f: Fields)
    requires i + 1 < |bs| && Decided(r, bs, i + 1, 0)
    ensures Decided(if r.err.Some? then r else r.(done := r.done[i := f]), bs, i, |bs[i].hooks|)
  {
    assert KeepFrom(bs, i + 1) <==> KeepSuccess(bs[i+1].hooks, 0) && KeepFrom(bs, i + 2);
  }

  lemma {:induction false} VerdictFrom(rt: Runtime, db: Database, bs: seq<Builder>, i: nat, h: nat,
                                       passed: Fields, own: Fields, same: bool, specs: seq<CreateSpec>)
    requires i < |bs| && h <= |bs[i].hooks| && AllPropagate(bs)
    ensures Decided(Run(rt, db, bs, i, h, passed, own, same, specs), bs, i, h)
    decreases |bs| - i, |bs[i].hooks| - h
  {
    if h < |bs[i].hooks| {
      var hook := bs[i].hooks[h];
      assert Propagates(hook);
      match hook.pre(passed)
      case Pass(f) =>
        VerdictFrom(rt, db, bs, i, h + 1, f, if same then f else own, same, specs);
        DecidedWrap(Run(rt, db, bs, i, h + 1, f, if same then f else own, same, specs), bs, i, h);
      case Substitute(f) =>
        VerdictFrom(rt, db, bs, i, h + 1, f, own, false, specs);
        DecidedWrap(Run(rt, db, bs, i, h + 1, f, own, false, specs), bs, i, h);
      case Refuse(_) =>
    } else if Check(rt, own).None? {
      var built := specs + [SpecOf(passed)];
      if i + 1 < |bs| {
        VerdictFrom(rt, db, bs, i + 1, 0, bs[i+1].f, bs[i+1].f, true, built);
        DecidedCore(Run(rt, db, bs, i + 1, 0, bs[i+1].f, bs[i+1].f, true, built), bs, i, passed);
      } else {
        DecidedInsert(db, built, bs, i, passed);
      }
    }
  }

  lemma {:induction false} DecidedInsert(db: Database, built: seq<CreateSpec>, bs: seq<Builder>, i: nat, f: Fields)
    requires i + 1 == |bs|
    ensures var r := RunInsert(db, built);
            Decided(if r.err.Some? then r else r.(done := r.done[i := f]), bs, i, |bs[i].hooks|)
  {
  }

  /** The chain gets to the insert and the database accepts it. */
  predicate Stores(rt: Runtime, db: Database, bs: seq<Builder>) {
    AllProceed(rt, bs, 0) && db(SpecsFrom(bs, 0)).Ok?
  }

  /** The outcome for hooks that hand on or refuse and propagate errors, decided by
      the builders and the database: if the rows are not stored, there is an error
      and nothing is done. If they are, a builder is done exactly when no hook of a
      later builder fails late, and the run succeeds exactly when no hook does. */
  lemma {:induction false} Verdict(rt: Runtime, db: Database, bs: seq<Builder>)
    requires bs != [] && AllPropagate(bs)
    ensures var r := RunAll(rt, db, bs);
            if Stores(rt, db, bs)
            then (forall j: nat :: j in r.done <==> j < |bs| && LaterKeep(bs, j)) && (r.err.None? <==> KeepFrom(bs, 0))
            else r.err.Some? && r.done == map[]
  {
    VerdictFrom(rt, db, bs, 0, 0, bs[0].f, bs[0].f, true, []);
    InsertIsExact(rt, db, bs);
    assert KeepFrom(bs, 0) <==> KeepSuccess(bs[0].hooks, 0) && KeepFrom(bs, 1);
  }

  /** Bulk create is all or nothing for hooks that hand on or refuse, propagate
      errors and do not fail late. If every builder gets past its hooks and its
      check and the database accepts the specs, there is no error, the one insert
      got the specs in builder order and every mutation is done. Otherwise there is
      an error, no mutation is done and no insert succeeded. */
  lemma {:induction false} AllOrNothing(rt: Runtime, db: Database, bs: seq<Builder>)
    requires bs != [] && AllPropagate(bs) && KeepFrom(bs, 0)
    ensures var r := RunAll(rt, db, bs);
            if Stores(rt, db, bs)
            then r.err.None? && r.inserts == [SpecsFrom(bs, 0)] && forall j: nat :: j in r.done <==> j < |bs|
            else r.err.Some? && r.ids.None? && r.done == map[]
  {
    Verdict(rt, db, bs);
    InsertIsExact(rt, db, bs);
    assert forall j: nat :: LaterKeep(bs, j);
  }

  /** A hook that fails after its next mutator succeeded is the only way to lose
      that: for hooks that propagate, an error comes with done mutations exactly
      when the rows are stored and some hook fails late. */
  lemma {:induction false} LateFailureIsExact(rt: Runtime, db: Database, bs: seq<Builder>)
    requires bs != [] && AllPropagate(bs)
    ensures var r := RunAll(rt, db, bs);
            (r.err.Some? && r.done != map[]) <==> (Stores(rt, db, bs) && !KeepFrom(bs, 0))
  {
    Verdict(rt, db, bs);
    var last: nat := |bs| - 1;
    assert LaterKeep(bs, last);
    assert Stores(rt, db, bs) ==> last in RunAll(rt, db, bs).done;
  }

  // ------------------------------------------------------------------------
  // Which error
  // ------------------------------------------------------------------------

  /** The hook hands its mutation on or refuses, and returns errors as they are. */
  ghost predicate ReturnsErrors(hook: Hook) {
    (forall f :: !hook.pre(f).Answer?) && (forall e :: hook.post(Some(e)) == Some(e))
  }

  ghost predicate AllReturnErrors(bs: seq<Builder>) {
    forall j, l :: 0 <= j < |bs| && 0 <= l < |bs[j].hooks| ==> ReturnsErrors(bs[j].hooks[l])
  }

  /** What stops the chain at hooks `h..` of a builder or at its check: the first
      refusal, or what its own mutation lacks once all hooks handed down. */
  function StoppedBy(rt: Runtime, hooks: seq<Hook>, h: nat, passed: Fields, own: Fields, same: bool)
    : Option<CreateError>
    requires h <= |hooks|
    decreases |hooks| - h
  {
    if h == |hooks| then Check(rt, own)
    else
      match hooks[h].pre(passed)
      case Pass(f) => StoppedBy(rt, hooks, h + 1, f, if same then f else own, same)
      case Substitute(f) => StoppedBy(rt, hooks, h + 1, f, own, false)
      case Refuse(e) => Some(e)
      case Answer => None
  }

  function Stop(rt: Runtime, b: Builder): Option<CreateError> {
    StoppedBy(rt, b.hooks, 0, b.f, b.f, true)
  }

  /** Builder `k` is the first that stops the chain, or none does and `k` counts them. */
  ghost predicate FirstStop(rt: Runtime, bs: seq<Builder>, i: nat, k: nat) {
    i <= k <= |bs| && (forall j :: i <= j < k ==> Stop(rt, bs[j]).None?) && (k < |bs| ==> Stop(rt, bs[k]).Some?)
  }

  /** The error of the first builder that stops the chain, or of the database. */
  ghost predicate EndsWith(r: Outcome, db: Database, stop: Option<CreateError>) {
    if stop.Some? then r.err == stop
    else r.inserts != [] && (db(r.inserts[0]).Err? ==> r.err == Some(InsertFailed(db(r.inserts[0]).error)))
  }

  lemma {:induction false} EndsWithFirst(rt: Runtime, db: Database, bs: seq<Builder>, i: nat, h: nat, passed: Fields,
                                         own: Fields, same: bool, specs: seq<CreateSpec>, k: nat)
    requires i < |bs| && h <= |bs[i].hooks| && AllReturnErrors(bs) && FirstStop(rt, bs, i + 1, k)
    ensures var stop := StoppedBy(rt, bs[i].hooks, h, passed, own, same);
            EndsWith(Run(rt, db, bs, i, h, passed, own, same, specs), db,
                     if stop.Some? then stop else if k < |bs| then Stop(rt, bs[k]) else None)
    decreases |bs| - i, |bs[i].hooks| - h
  {
    if h < |bs[i].hooks| {
      var hook := bs[i].hooks[h];
      assert ReturnsErrors(hook);
      match hook.pre(passed)
      case Pass(f) => EndsWithFirst(rt, db, bs, i, h + 1, f, if same then f else own, same, specs, k);
      case Substitute(f) => EndsWithFirst(rt, db, bs, i, h + 1, f, own, false, specs, k);
      case Refuse(_) =>
    } else if Check(rt, own).None? && i + 1 < |bs| {
      var l := k;
      if k == i + 1 {
        l := NextStop(rt, bs, i + 2);
      }
      EndsWithFirst(rt, db, bs, i + 1, 0, bs[i+1].f, bs[i+1].f, true, specs + [SpecOf(passed)], l);
    }
  }

  lemma {:induction false} NextStop(rt: Runtime, bs: seq<Builder>, i: nat) returns (k: nat)
    requires i <= |bs|
    ensures FirstStop(rt, bs, i, k)
    decreases |bs| - i
  {
    k := i;
    if i < |bs| && Stop(rt, bs[i]).None? {
      k := NextStop(rt, bs, i + 1);
    }
  }

  /** With hooks that return errors as they are, the error is that of the first
      builder whose hooks refuse or whose own mutation fails its check, whatever later
      builders would do, and that of the database if no builder stops the chain. */
  lemma {:induction false} ErrorIsFirst(rt: Runtime, db: Database, bs: seq<Builder>, k: nat)
    requires bs != [] && AllReturnErrors(bs) && FirstStop(rt, bs, 0, k)
    ensures k < |bs| ==> RunAll(rt, db, bs).err == Stop(rt, bs[k])
    ensures k == |bs| ==>
              match db(SpecsFrom(bs, 0))
              case Err(msg) => RunAll(rt, db, bs).err == Some(InsertFailed(msg))
              case Ok(_) => KeepFrom(bs, 0) ==> RunAll(rt, db, bs).err == None
  {
    var l := k;
    if k == 0 {
      l := NextStop(rt, bs, 1);
    }
    EndsWithFirst(rt, db, bs, 0, 0, bs[0].f, bs[0].f, true, [], l);
    InsertIsExact(rt, db, bs);
    assert AllPropagate(bs);
    Verdict(rt, db, bs);
  }

  const SOME_FIELDS := Fields(Some(1), Some(1), Some("a"), None, Some(NilMap), Some(true), {}, None, {})

  /** A database that accepts the insert, and a hook that fails afterwards. */
  const ACCEPTS: Database := (specs: seq<CreateSpec>) => Ok([Some(7)])
  const LATE_HOOK := Hook((f: Fields) => Pass(f),
                         (e: Option<CreateError>) => if e.None? then Some(HookFailed("late")) else e)

  /** Such a run: the row is stored and its mutation done, yet Save returns an error. */
  lemma {:induction false} LateFailureHappens(rt: Runtime)
    requires rt.nameValid("a")
    ensures var r := RunAll(rt, ACCEPTS, [Builder(SOME_FIELDS, [LATE_HOOK])]);
            && r.err == Some(HookFailed("late")) && r.done == map[0 := SOME_FIELDS]
            && r.inserts == [[SpecOf(SOME_FIELDS)]] && r.ids == Some([Some(7)])
  {
    var bs := [Builder(SOME_FIELDS, [LATE_HOOK])];
    var r := Run(rt, ACCEPTS, bs, 0, 1, SOME_FIELDS, SOME_FIELDS, true, []);
    assert [] + [SpecOf(SOME_FIELDS)] == [SpecOf(SOME_FIELDS)];
    assert r.inserts == [[SpecOf(SOME_FIELDS)]] && r.ids == Some([Some(7)]) && r.done == map[0 := SOME_FIELDS];
    assert LATE_HOOK.pre(SOME_FIELDS) == Pass(SOME_FIELDS);
  }

  // ------------------------------------------------------------------------
  // Required fields
  // ------------------------------------------------------------------------

  /** The hook never hands down another mutation than the one it received. */
  ghost predicate KeepsMutation(hook: Hook) {
    forall f :: !hook.pre(f).Substitute?
  }

  lemma {:induction false} OwnIsHanded(hooks: seq<Hook>, h: nat, f: Fields)
    requires h <= |hooks| && forall l :: 0 <= l < |hooks| ==> KeepsMutation(hooks[l])
    ensures var (down, mine) := HandedDown(hooks, h, f, f, true); down == mine
    decreases |hooks| - h
  {
    if h < |hooks| && hooks[h].pre(f).Pass? {
      OwnIsHanded(hooks, h + 1, hooks[h].pre(f).f);
    }
  }

  /** With hooks that hand on the builder's own mutation, every spec that reaches
      the insert is made of fields that passed the check, so none lacks a required
      field, although Save discards the error of `defaults`. */
  lemma {:induction false} InsertsAreChecked(rt: Runtime, db: Database, bs: seq<Builder>)
    requires forall j, l :: 0 <= j < |bs| && 0 <= l < |bs[j].hooks| ==> KeepsMutation(bs[j].hooks[l])
    ensures var r := RunAll(rt, db, bs);
            r.inserts != [] ==>
              |r.inserts| == 1 && |r.inserts[0]| == |bs| &&
              forall j :: 0 <= j < |bs| ==>
                && r.inserts[0][j] == SpecOf(Handed(bs[j]).0)
                && Check(rt, Handed(bs[j]).0).None? && Complete(Handed(bs[j]).0)
  {
    if bs != [] && RunAll(rt, db, bs).inserts != [] {
      InsertIsExact(rt, db, bs);
      forall j | 0 <= j < |bs|
        ensures SpecsFrom(bs, 0)[j] == SpecOf(Handed(bs[j]).0) && Check(rt, Handed(bs[j]).0).None?
      {
        OwnIsHanded(bs[j].hooks, 0, bs[j].f);
        assert Proceeds(rt, bs[j].hooks, 0, bs[j].f, bs[j].f, true);
      }
    }
  }

  const NAMELESS := SOME_FIELDS.(name := None)
  const SUBSTITUTE_HOOK := Hook((f: Fields) => Substitute(NAMELESS), (e: Option<CreateError>) => e)

  /** The builder checks its own mutation before it adopts the one it is handed:
      a hook that hands down another one gets a row without a name inserted. */
  lemma {:induction false} SubstituteEscapesCheck(rt: Runtime)
    requires rt.nameValid("a")
    ensures var r := RunAll(rt, ACCEPTS, [Builder(SOME_FIELDS, [SUBSTITUTE_HOOK])]);
            r.err.None? && r.inserts == [[SpecOf(NAMELESS)]] && Check(rt, NAMELESS) == Some(Missing(FieldName))
  {
    var bs := [Builder(SOME_FIELDS, [SUBSTITUTE_HOOK])];
    var r := Run(rt, ACCEPTS, bs, 0, 1, NAMELESS, SOME_FIELDS, false, []);
    assert [] + [SpecOf(NAMELESS)] == [SpecOf(NAMELESS)];
    assert r.inserts == [[SpecOf(NAMELESS)]] && r.err.None?;
    assert SUBSTITUTE_HOOK.pre(SOME_FIELDS) == Substitute(NAMELESS);
  }

  /** No fields that pass the check make this spec. */
  ghost predicate Unchecked(rt: Runtime, spec: CreateSpec) {
    forall f :: SpecOf(f) == spec ==> Check(rt, f).Some?
  }

  lemma {:induction false} UncheckedSpec(rt: Runtime, f: Fields)
    ensures Unchecked(rt, SpecOf(f)) <==> Check(rt, f).Some?
  {
    forall g | SpecOf(g) == SpecOf(f)
      ensures Check(rt, g) == Check(rt, f)
    {
      SpecDetermines(rt, g, f);
    }
  }

  /** Whatever the hooks do, an unchecked spec is inserted if and only if every
      builder gets past its hooks and its check while some builder's hooks hand
      down a mutation that does not itself pass. */
  lemma {:induction false} UncheckedIsExact(rt: Runtime, db: Database, bs: seq<Builder>)
    ensures (exists specs <- RunAll(rt, db, bs).inserts, spec <- specs :: Unchecked(rt, spec)) <==>
            AllProceed(rt, bs, 0) && exists j :: 0 <= j < |bs| && Check(rt, Handed(bs[j]).0).Some?
  {
    if bs != [] {
      InsertIsExact(rt, db, bs);
      UncheckedAmong(rt, bs);
    }
  }

  lemma {:induction false} UncheckedAmong(rt: Runtime, bs: seq<Builder>)
    ensures (exists spec <- SpecsFrom(bs, 0) :: Unchecked(rt, spec)) <==>
            exists j :: 0 <= j < |bs| && Check(rt, Handed(bs[j]).0).Some?
  {
    forall j | 0 <= j < |bs|
      ensures Unchecked(rt, SpecsFrom(bs, 0)[j]) <==> Check(rt, Handed(bs[j]).0).Some?
    {
      UncheckedSpec(rt, Handed(bs[j]).0);
    }
    if j :| 0 <= j < |bs| && Check(rt, Handed(bs[j]).0).Some? {
      assert SpecsFrom(bs, 0)[j] in SpecsFrom(bs, 0);
    }
  }

  /** A spec determines the fields it was made of, and so whether they pass. */
  lemma {:induction false} SpecDetermines(rt: Runtime, f: Fields, g: Fields)
    requires SpecOf(f) == SpecOf(g)
    ensures Check(rt, f) == Check(rt, g)
  {
    SameGiven(f, g, FieldCreatedAt);
    SameGiven(f, g, FieldUpdatedAt);
    SameGiven(f, g, FieldName);
    SameGiven(f, g, FieldCredentials);
    SameGiven(f, g, FieldSchedulable);
  }

  lemma {:induction false} SameGiven(f: Fields, g: Fields, c: Column)
    requires SpecOf(f) == SpecOf(g)
    ensures Given(f, c) == Given(g, c)
  {
    SpecFieldsHold(f, c);
    SpecFieldsHold(g, c);
  }
}
