/** Bulk create: the chain of mutators that `AccountCreateBulk.Save` builds. */
module BulkCreating {
  import opened Prelude
  import opened RowCodec
  import opened Entities
  import opened AccountCreating

  /** What a hook does with the mutation it is handed. */
  datatype Before =
    | Pass(f: Fields)           // sets fields of this mutation and calls the next mutator with it
    | Substitute(f: Fields)     // calls the next mutator with another mutation
    | Refuse(e: CreateError)    // returns an error without calling the next mutator
    | Answer                    // returns a value without calling the next mutator

  /** A hook that calls the next mutator at most once. `post` is what it returns
      once the next mutator has returned an error or none. */
  datatype Hook = Hook(pre: Fields -> Before, post: Option<CreateError> -> Option<CreateError>)

  datatype Event = Enter(builder: nat, hook: nat) | Exit(builder: nat, hook: nat) | Insert

  /** The IDs the database assigned, by position. */
  type IDList = seq<Option<int>>

  /** A builder as the chain meets it: its fields after `defaults`, its hooks. */
  datatype Builder = Builder(f: Fields, hooks: seq<Hook>)

  /** What a batch insert of these specs answers. */
  type Database = seq<CreateSpec> -> Result<IDList, string>

  // ------------------------------------------------------------------------
  // Specification: the run of the chain as a function
  // ------------------------------------------------------------------------

  /** `inserts` are the batch inserts that ran, `ids` what the last successful one
      assigned, and `done` the builders whose mutation was marked done, with the
      fields of that mutation. */
  datatype Outcome = Outcome(
    err: Option<CreateError>,
    trace: seq<Event>,
    inserts: seq<seq<CreateSpec>>,
    ids: Option<IDList>,
    done: map<nat, Fields>)

  function RunInsert(db: Database, specs: seq<CreateSpec>): Outcome {
    match db(specs)
    case Err(msg) => Outcome(Some(InsertFailed(msg)), [Insert], [specs], None, map[])
    case Ok(ids) => Outcome(None, [Insert], [specs], Some(ids), map[])
  }

  /** Wraps the run of what a hook called into the hook's own enter, exit and verdict. */
  function Wrap(i: nat, h: nat, post: Option<CreateError> -> Option<CreateError>, r: Outcome): Outcome {
    r.(err := post(r.err), trace := [Enter(i, h)] + r.trace + [Exit(i, h)])
  }

  /** The run from hook `h` of builder `i` on. `own` are the fields of the
      builder's mutation, `passed` those of the mutation handed down, and `same`
      tells whether the two are one object. `specs` are the specs built so far. */
  function Run(rt: Runtime, db: Database, bs: seq<Builder>, i: nat, h: nat,
               passed: Fields, own: Fields, same: bool, specs: seq<CreateSpec>): Outcome
    requires i < |bs| && h <= |bs[i].hooks|
    decreases |bs| - i, |bs[i].hooks| - h
  {
    if h < |bs[i].hooks| then
      var hook := bs[i].hooks[h];
      match hook.pre(passed)
      case Pass(f) => Wrap(i, h, hook.post, Run(rt, db, bs, i, h + 1, f, if same then f else own, same, specs))
      case Substitute(f) => Wrap(i, h, hook.post, Run(rt, db, bs, i, h + 1, f, own, false, specs))
      case Refuse(e) => Outcome(Some(e), [Enter(i, h), Exit(i, h)], [], None, map[])
      case Answer => Outcome(None, [Enter(i, h), Exit(i, h)], [], None, map[])
    else if Check(rt, own).Some? then
      Outcome(Check(rt, own), [], [], None, map[])
    else
      var built := specs + [SpecOf(passed)];
      var r := if i + 1 < |bs| then Run(rt, db, bs, i + 1, 0, bs[i+1].f, bs[i+1].f, true, built)
               else RunInsert(db, built);
      if r.err.Some? then r else r.(done := r.done[i := passed])
  }

  /** Only builders of the run are marked done. */
  lemma {:induction false} DoneRange(rt: Runtime, db: Database, bs: seq<Builder>, i: nat, h: nat,
                                     passed: Fields, own: Fields, same: bool, specs: seq<CreateSpec>)
    requires i < |bs| && h <= |bs[i].hooks|
    ensures forall j <- Run(rt, db, bs, i, h, passed, own, same, specs).done.Keys :: i <= j < |bs|
    decreases |bs| - i, |bs[i].hooks| - h
  {
    if h < |bs[i].hooks| {
      match bs[i].hooks[h].pre(passed)
      case Pass(f) => DoneRange(rt, db, bs, i, h + 1, f, if same then f else own, same, specs);
      case Substitute(f) => DoneRange(rt, db, bs, i, h + 1, f, own, false, specs);
      case Refuse(_) =>
      case Answer =>
    } else if Check(rt, own).None? && i + 1 < |bs| {
      DoneRange(rt, db, bs, i + 1, 0, bs[i+1].f, bs[i+1].f, true, specs + [SpecOf(passed)]);
    }
  }

  /** The whole chain, over builders whose defaults were set. */
  function RunAll(rt: Runtime, db: Database, bs: seq<Builder>): Outcome {
    if bs == [] then Outcome(None, [], [], None, map[])
    else Run(rt, db, bs, 0, 0, bs[0].f, bs[0].f, true, [])
  }

  // ------------------------------------------------------------------------
  // The chain on the heap
  // ------------------------------------------------------------------------

  class AccountMutation {
    var f: Fields
    var id: Account?     // `id` points at the ID field of this node
    var done: bool

    constructor (f: Fields)
      ensures this.f == f && id == null && !done
    {
      this.f, id, done := f, null, false;
    }
  }

  class AccountCreate {
    var mutation: AccountMutation
    const hooks: seq<Hook>

    constructor (mutation: AccountMutation, hooks: seq<Hook>)
      ensures this.mutation == mutation && this.hooks == hooks
    {
      this.mutation := mutation;
      this.hooks := hooks;
    }

    /** `defaults`, one field after the other. */
    method Defaults(rt: Runtime) returns (err: Option<CreateError>)
      modifies mutation`f
      ensures (mutation.f, err) == Defaulted(rt, old(mutation.f))
    {
      if mutation.f.createdAt.None? {
        if rt.defaultCreatedAt.None? {
          return Some(Uninitialized(FieldCreatedAt));
        }
        mutation.f := mutation.f.(createdAt := rt.defaultCreatedAt);
      }
      if mutation.f.updatedAt.None? {
        if rt.defaultUpdatedAt.None? {
          return Some(Uninitialized(FieldUpdatedAt));
        }
        mutation.f := mutation.f.(updatedAt := rt.defaultUpdatedAt);
      }
      if mutation.f.credentials.None? {
        if rt.defaultCredentials.None? {
          return Some(Uninitialized(FieldCredentials));
        }
        mutation.f := mutation.f.(credentials := rt.defaultCredentials);
      }
      if mutation.f.schedulable.None? {
        mutation.f := mutation.f.(schedulable := Some(rt.defaultSchedulable));
      }
      return None;
    }
  }
}
