/** Query builders and `Clone`: a deep copy of a tree of nested queries whose
    slices and contexts live on the heap and are appended to in place. */
module QueryCloning {
  import opened Prelude

  /** A predicate, an order term, an interceptor or a modifier: an opaque function value. */
  type Term = int

  /** A Go slice: a prefix of a backing array that append writes to in place
      while there is capacity left. */
  datatype Slice = Slice(back: array<Term>, len: nat) {
    ghost predicate Fits() {
      len <= back.Length
    }

    function Items(): seq<Term>
      requires Fits()
      reads back
    {
      back[..len]
    }
  }

  method Append(s: Slice, x: Term) returns (r: Slice)
    requires s.Fits()
    modifies s.back
    ensures r.Fits() && (r.back == s.back || fresh(r.back))
    ensures r.back == s.back <==> s.len < s.back.Length
    ensures r.Items() == old(s.Items()) + [x]
  {
    if s.len < s.back.Length {
      s.back[s.len] := x;
      r := Slice(s.back, s.len + 1);
    } else {
      var back := new Term[2 * s.len + 1](i requires 0 <= i reads s.back => if i < s.back.Length then s.back[i] else x);
      r := Slice(back, s.len + 1);
    }
  }

  /** `append([]T{}, s...)` */
  method CopySlice(s: Slice) returns (r: Slice)
    requires s.Fits()
    ensures r.Fits() && fresh(r.back) && r.Items() == s.Items()
  {
    var back := new Term[s.len](i requires 0 <= i < s.len && s.Fits() reads s.back => s.back[i]);
    r := Slice(back, s.len);
  }

  /** The query context: what Select, Limit and Unique set. */
  datatype Context = Context(fields: seq<string>, limit: Option<int>, offset: Option<int>, unique: Option<bool>)

  class QueryContext {
    var c: Context
    constructor (c: Context)
      ensures this.c == c
    {
      this.c := c;
    }
  }

  /** A query tree as a value. `path` identifies the traversal function. */
  datatype View = View(ctx: Context, order: seq<Term>, inters: seq<Term>, predicates: seq<Term>,
                       withGroups: Option<View>, withProxy: Option<View>, path: Option<Term>, modifiers: seq<Term>)

  ghost predicate Same(v: View, w: View) {
    && v.ctx == w.ctx && v.order == w.order && v.inters == w.inters && v.predicates == w.predicates
    && v.withGroups == w.withGroups && v.withProxy == w.withProxy && v.path == w.path && v.modifiers == w.modifiers
  }

  const EMPTY_VIEW := View(Context([], None, None, None), [], [], [], None, None, None, [])

  /** `w` is a clone of `v`: equal in everything but the modifiers, which are gone, and
      the child queries, which are present where those of `v` are and clones of them. */
  ghost predicate IsClone(v: View, w: View) {
    && w.ctx == v.ctx && w.order == v.order && w.inters == v.inters && w.predicates == v.predicates
    && w.path == v.path && w.modifiers == []
    && IsCloneEdge(v.withGroups, w.withGroups) && IsCloneEdge(v.withProxy, w.withProxy)
  }

  ghost predicate IsCloneEdge(v: Option<View>, w: Option<View>) {
    match (v, w)
    case (None, None) => true
    case (Some(x), Some(y)) => IsClone(x, y)
    case _ => false
  }

  /** No query of the tree has modifiers. */
  ghost predicate Plain(v: View) {
    v.modifiers == [] && (v.withGroups.Some? ==> Plain(v.withGroups.value)) &&
    (v.withProxy.Some? ==> Plain(v.withProxy.value))
  }

  /** A query tree without modifiers, and no other, is its own clone. */
  lemma {:induction false} PlainIsItsClone(v: View)
    ensures Plain(v) <==> IsClone(v, v)
  {
    if v.withGroups.Some? {
      PlainIsItsClone(v.withGroups.value);
    }
    if v.withProxy.Some? {
      PlainIsItsClone(v.withProxy.value);
    }
  }

  /** A tree has one clone, and that one is plain: so a plain tree is cloned to an
      equal one, and cloning a clone changes nothing. */
  lemma {:induction false} OneClone(v: View, w: View, x: View)
    requires IsClone(v, w) && IsClone(v, x)
    ensures w == x && Plain(w) && (Plain(v) ==> w == v)
  {
    if v.withGroups.Some? {
      OneClone(v.withGroups.value, w.withGroups.value, x.withGroups.value);
    }
    if v.withProxy.Some? {
      OneClone(v.withProxy.value, w.withProxy.value, x.withProxy.value);
    }
  }

  class Query {
    var ctx: QueryContext
    var order: Slice
    var inters: Slice
    var predicates: Slice
    var withGroups: Query?
    var withProxy: Query?
    var path: Option<Term>
    var modifiers: seq<Term>
    ghost var Repr: set<object>

    ghost predicate Valid()
      reads this, Repr
      ensures Valid() ==> this in Repr
    {
      && this in Repr && Parts(ctx, order, inters, predicates) <= Repr && Separate(order, inters, predicates)
      && (withGroups != null ==>
            && withGroups in Repr && withGroups.Repr <= Repr && this !in withGroups.Repr
            && withGroups.Repr !! Parts(ctx, order, inters, predicates) && withGroups.Valid())
      && (withProxy != null ==>
            && withProxy in Repr && withProxy.Repr <= Repr && this !in withProxy.Repr
            && withProxy.Repr !! Parts(ctx, order, inters, predicates) && withProxy.Valid())
      && (withGroups != null && withProxy != null ==> withGroups.Repr !! withProxy.Repr)
    }

    ghost function AsView(): View
      requires Valid()
      reads this, Repr
      decreases Repr
    {
      View(ctx.c, order.Items(), inters.Items(), predicates.Items(),
           if withGroups == null then None else Some(withGroups.AsView()),
           if withProxy == null then None else Some(withProxy.AsView()),
           path, modifiers)
    }

    constructor ()
      ensures Valid() && fresh(Repr) && AsView() == EMPTY_VIEW
    {
      ctx := new QueryContext(Context([], None, None, None));
      var o := new Term[0];
      var i := new Term[0];
      var p := new Term[0];
      order, inters, predicates := Slice(o, 0), Slice(i, 0), Slice(p, 0);
      withGroups, withProxy, path, modifiers := null, null, None, [];
      new;
      Repr := {this, ctx, order.back, inters.back, predicates.back};
    }

    /** A query made of parts that share nothing with each other. */
    constructor Assemble(ctx: QueryContext, order: Slice, inters: Slice, predicates: Slice,
                         groups: Query?, proxy: Query?, path: Option<Term>, ghost v: View)
      requires Holds(ctx, order, inters, predicates, v)
      requires Owned(groups) && Owned(proxy)
      requires ReprOf(groups) !! Parts(ctx, order, inters, predicates)
      requires ReprOf(proxy) !! Parts(ctx, order, inters, predicates)
      requires ReprOf(groups) !! ReprOf(proxy)
      requires ViewOf(groups) == v.withGroups && ViewOf(proxy) == v.withProxy && path == v.path && v.modifiers == []
      ensures Valid() && AsView() == v
      ensures Repr == {this} + Parts(ctx, order, inters, predicates) + ReprOf(groups) + ReprOf(proxy)
    {
      this.ctx, this.order, this.inters, this.predicates := ctx, order, inters, predicates;
      this.withGroups, this.withProxy, this.path, this.modifiers := groups, proxy, path, [];
      Repr := {this} + Parts(ctx, order, inters, predicates) + ReprOf(groups) + ReprOf(proxy);
    }

    /** `Clone`. Nothing the clone is made of existed before. */
    method Clone() returns (c: Query)
      requires Valid()
      ensures c.Valid() && fresh(c.Repr)
      ensures IsClone(old(AsView()), c.AsView())
      decreases Repr, 2
    {
      ghost var v := AsView();
      var groups, proxy := CloneChildren(v);
      ghost var children := ReprOf(groups) + ReprOf(proxy);
      ghost var w := View(v.ctx, v.order, v.inters, v.predicates, ViewOf(groups), ViewOf(proxy), v.path, []);
      c := CloneAround(groups, proxy, v, w, children);
      assert fresh(children) && c.Repr <= children + (c.Repr - children);
    }

    /** A clone of this query around the given children. */
    method CloneAround(groups: Query?, proxy: Query?, ghost v: View, ghost w: View, ghost children: set<object>)
      returns (c: Query)
      requires Valid() && v == AsView()
      requires Owned(groups) && Owned(proxy) && ReprOf(groups) !! ReprOf(proxy)
      requires children == ReprOf(groups) + ReprOf(proxy)
      requires w == View(v.ctx, v.order, v.inters, v.predicates, ViewOf(groups), ViewOf(proxy), v.path, [])
      ensures c.Valid() && c.AsView() == w
      ensures fresh(c.Repr - children)
      decreases Repr, 1
    {
      var context, o, i, p := CloneParts(v);
      c := new Query.Assemble(context, o, i, p, groups, proxy, path, w);
    }

    method CloneChildren(ghost v: View) returns (groups: Query?, proxy: Query?)
      requires Valid() && v == AsView()
      ensures Owned(groups) && Owned(proxy) && ReprOf(groups) !! ReprOf(proxy)
      ensures fresh(ReprOf(groups)) && fresh(ReprOf(proxy))
      ensures IsCloneEdge(v.withGroups, ViewOf(groups)) && IsCloneEdge(v.withProxy, ViewOf(proxy))
      decreases Repr, 1
    {
      groups := CloneEdge(withGroups);
      assert Owned(withProxy) && ViewOf(withProxy) == v.withProxy;
      proxy := CloneEdge(withProxy);
    }

    /** The parts of a clone that are not child queries. */
    method CloneParts(ghost v: View) returns (context: QueryContext, o: Slice, i: Slice, p: Slice)
      requires Valid() && v == AsView()
      ensures fresh(Parts(context, o, i, p)) && Holds(context, o, i, p, v)
    {
      context := new QueryContext(ctx.c);
      o := CopySlice(order);
      i := CopySlice(inters);
      p := CopySlice(predicates);
    }

    method Where(p: Term)
      requires Valid()
      modifies Repr
      ensures Valid() && fresh(Repr - old(Repr))
      ensures AsView() == old(AsView()).(predicates := old(AsView()).predicates + [p])
    {
      ghost var v := AsView();
      predicates := Append(predicates, p);
      Repr := Repr + {predicates.back};
      assert Same(v, AsView().(predicates := v.predicates));
    }

    method Order(o: Term)
      requires Valid()
      modifies Repr
      ensures Valid() && fresh(Repr - old(Repr))
      ensures AsView() == old(AsView()).(order := old(AsView()).order + [o])
    {
      ghost var v := AsView();
      order := Append(order, o);
      Repr := Repr + {order.back};
      assert Same(v, AsView().(order := v.order));
    }

    method Limit(n: int)
      requires Valid()
      modifies Repr
      ensures Valid() && fresh(Repr - old(Repr))
      ensures AsView() == old(AsView()).(ctx := old(AsView()).ctx.(limit := Some(n)))
    {
      ctx.c := ctx.c.(limit := Some(n));
    }

    /** `WithGroups`; `options` are the calls its option functions make on the new child query. */
    method WithGroups(options: seq<Call>)
      requires Valid()
      modifies Repr
      ensures Valid() && fresh(Repr - old(Repr))
      ensures AsView() == old(AsView()).(withGroups := Some(CalledAll(EMPTY_VIEW, options)))
      decreases options, 2
    {
      ghost var v := AsView();
      var child := NewChild(options);
      assert Valid() && AsView() == v && child.Repr !! Repr;
      AttachGroups(child);
    }

    method AttachGroups(child: Query)
      requires Valid() && child.Valid() && child.Repr !! Repr
      modifies this
      ensures Valid() && Repr == old(Repr) + child.Repr
      ensures AsView() == old(AsView()).(withGroups := Some(child.AsView()))
    {
      withGroups := child;
      Repr := Repr + child.Repr;
    }

    method WithProxy(options: seq<Call>)
      requires Valid()
      modifies Repr
      ensures Valid() && fresh(Repr - old(Repr))
      ensures AsView() == old(AsView()).(withProxy := Some(CalledAll(EMPTY_VIEW, options)))
      decreases options, 2
    {
      ghost var v := AsView();
      var child := NewChild(options);
      assert Valid() && AsView() == v && child.Repr !! Repr;
      AttachProxy(child);
    }

    method AttachProxy(child: Query)
      requires Valid() && child.Valid() && child.Repr !! Repr
      modifies this
      ensures Valid() && Repr == old(Repr) + child.Repr
      ensures AsView() == old(AsView()).(withProxy := Some(child.AsView()))
    {
      withProxy := child;
      Repr := Repr + child.Repr;
    }

    method Do(call: Call)
      requires Valid()
      modifies Repr
      ensures Valid() && fresh(Repr - old(Repr))
      ensures AsView() == Called(old(AsView()), call)
      ensures Changed(old(AsView()), call, AsView())
      decreases call, 0
    {
      match call
      case Where(p) => Where(p);
      case Order(o) => Order(o);
      case Limit(n) => Limit(n);
      case WithGroups(options) => WithGroups(options);
      case WithProxy(options) => WithProxy(options);
    }
  }

  /** The child query of a `With...` call, after its options. */
  method NewChild(options: seq<Call>) returns (q: Query)
    ensures q.Valid() && fresh(q.Repr)
    ensures q.AsView() == CalledAll(EMPTY_VIEW, options)
    decreases options, 1
  {
    q := new Query();
    for i := 0 to |options|
      invariant q.Valid() && fresh(q.Repr)
      invariant q.AsView() == CalledAll(EMPTY_VIEW, options[..i])
    {
      assert options[..i+1][..i] == options[..i];
      q.Do(options[i]);
    }
    assert options[..|options|] == options;
  }

  datatype Call = Where(p: Term) | Order(o: Term) | Limit(n: int)
      | WithGroups(options: seq<Call>) | WithProxy(options: seq<Call>)

  function Called(v: View, call: Call): View
    decreases call
  {
    match call
    case Where(p) => v.(predicates := v.predicates + [p])
    case Order(o) => v.(order := v.order + [o])
    case Limit(n) => v.(ctx := v.ctx.(limit := Some(n)))
    case WithGroups(options) => v.(withGroups := Some(CalledAll(EMPTY_VIEW, options)))
    case WithProxy(options) => v.(withProxy := Some(CalledAll(EMPTY_VIEW, options)))
  }

  /** The one part of the tree a call names is changed: a term is appended, the limit
      replaced, or a child query replaced by an empty one its options were called on. */
  ghost predicate Changed(v: View, call: Call, w: View) {
    match call
    case Where(p) => w.predicates == v.predicates + [p] && w.(predicates := v.predicates) == v
    case Order(o) => w.order == v.order + [o] && w.(order := v.order) == v
    case Limit(n) => w.ctx.limit == Some(n) && w.(ctx := w.ctx.(limit := v.ctx.limit)) == v
    case WithGroups(options) =>
      w.withGroups == Some(CalledAll(EMPTY_VIEW, options)) && w.(withGroups := v.withGroups) == v
    case WithProxy(options) =>
      w.withProxy == Some(CalledAll(EMPTY_VIEW, options)) && w.(withProxy := v.withProxy) == v
  }

  function CalledAll(v: View, calls: seq<Call>): View
    decreases calls
  {
    if calls == [] then v else Called(CalledAll(v, calls[..|calls|-1]), calls[|calls|-1])
  }

  /** The calls take effect one after the other, from the first. */
  lemma {:induction false} CalledInOrder(v: View, calls: seq<Call>)
    ensures calls == [] ==> CalledAll(v, calls) == v
    ensures calls != [] ==> CalledAll(v, calls) == CalledAll(Called(v, calls[0]), calls[1..])
  {
    if calls != [] {
      var k := |calls| - 1;
      CalledInOrder(v, calls[..k]);
      if k > 0 {
        assert calls[1..][..k-1] == calls[..k][1..];
      }
    }
  }

  /** The heap objects a query has of its own, next to itself and its children. */
  ghost function Parts(ctx: QueryContext, order: Slice, inters: Slice, predicates: Slice): set<object> {
    {ctx, order.back, inters.back, predicates.back}
  }

  ghost predicate Separate(order: Slice, inters: Slice, predicates: Slice) {
    && order.Fits() && inters.Fits() && predicates.Fits()
    && order.back != inters.back && order.back != predicates.back && inters.back != predicates.back
  }

  /** These separate parts hold what the view says. */
  ghost predicate Holds(ctx: QueryContext, order: Slice, inters: Slice, predicates: Slice, v: View)
    reads Parts(ctx, order, inters, predicates)
  {
    && Separate(order, inters, predicates)
    && ctx.c == v.ctx && order.Items() == v.order && inters.Items() == v.inters && predicates.Items() == v.predicates
  }

  ghost predicate Owned(q: Query?)
    reads q, if q == null then {} else q.Repr
  {
    q != null ==> q.Valid()
  }

  ghost function ReprOf(q: Query?): set<object>
    reads q
  {
    if q == null then {} else q.Repr
  }

  ghost function ViewOf(q: Query?): Option<View>
    requires Owned(q)
    reads q, if q == null then {} else q.Repr
  {
    if q == null then None else Some(q.AsView())
  }

  /** Cloning a child query, which may be nil. */
  method CloneEdge(q: Query?) returns (c: Query?)
    requires Owned(q)
    ensures Owned(c) && fresh(ReprOf(c))
    ensures IsCloneEdge(ViewOf(q), ViewOf(c))
    decreases ReprOf(q), 3
  {
    c := null;
    if q != null {
      c := q.Clone();
    }
  }

  /** A use of a query and its clone: which of the two is called, and how. */
  datatype Use = OnOriginal(call: Call) | OnClone(call: Call)

  function Calls(uses: seq<Use>, original: bool): seq<Call> {
    if uses == [] then []
    else
      Calls(uses[..|uses|-1], original) + if uses[|uses|-1].OnOriginal? == original then [uses[|uses|-1].call] else []
  }

  lemma {:induction false} CalledOne(v: View, calls: seq<Call>, call: Call)
    ensures CalledAll(v, calls + [call]) == Called(CalledAll(v, calls), call)
    ensures calls + [] == calls
  {
    assert (calls + [call])[..|calls|] == calls;
  }

  method UseOne(q: Query, c: Query, use: Use)
    requires q.Valid() && c.Valid() && q.Repr !! c.Repr
    modifies if use.OnOriginal? then q.Repr else c.Repr
    ensures q.Valid() && c.Valid() && q.Repr !! c.Repr
    ensures fresh(q.Repr - old(q.Repr)) && fresh(c.Repr - old(c.Repr))
    ensures q.AsView() == if use.OnOriginal? then Called(old(q.AsView()), use.call) else old(q.AsView())
    ensures c.AsView() == if use.OnOriginal? then old(c.AsView()) else Called(old(c.AsView()), use.call)
  {
    if use.OnOriginal? {
      q.Do(use.call);
    } else {
      c.Do(use.call);
    }
  }

  method UseBoth(q: Query, c: Query, uses: seq<Use>)
    requires q.Valid() && c.Valid() && q.Repr !! c.Repr
    modifies q.Repr, c.Repr
    ensures q.Valid() && c.Valid() && q.Repr !! c.Repr
    ensures q.AsView() == CalledAll(old(q.AsView()), Calls(uses, true))
    ensures c.AsView() == CalledAll(old(c.AsView()), Calls(uses, false))
  {
    for i := 0 to |uses|
      invariant q.Valid() && c.Valid() && q.Repr !! c.Repr
      invariant fresh(q.Repr - old(q.Repr)) && fresh(c.Repr - old(c.Repr))
      invariant q.AsView() == CalledAll(old(q.AsView()), Calls(uses[..i], true))
      invariant c.AsView() == CalledAll(old(c.AsView()), Calls(uses[..i], false))
    {
      UseStep(old(q.AsView()), uses, i, true);
      UseStep(old(c.AsView()), uses, i, false);
      UseOne(q, c, uses[i]);
    }
    assert uses[..|uses|] == uses;
  }

  lemma {:induction false} UseStep(v: View, uses: seq<Use>, i: nat, original: bool)
    requires i < |uses|
    ensures CalledAll(v, Calls(uses[..i+1], original)) ==
            if uses[i].OnOriginal? == original then Called(CalledAll(v, Calls(uses[..i], original)), uses[i].call)
            else CalledAll(v, Calls(uses[..i], original))
  {
    assert uses[..i+1][..i] == uses[..i];
    CalledOne(v, Calls(uses[..i], original), uses[i].call);
  }

  /** A clone is independent of its original: after any interleaving of calls on
      the two, each is what its own calls alone made of it, the clone starting from
      a view that is a clone of the original's. */
  method CloneAndUse(q: Query, uses: seq<Use>) returns (c: Query, ghost start: View)
    requires q.Valid()
    modifies q.Repr
    ensures q.Valid() && c.Valid() && q.Repr !! c.Repr
    ensures q.AsView() == CalledAll(old(q.AsView()), Calls(uses, true))
    ensures IsClone(old(q.AsView()), start) && c.AsView() == CalledAll(start, Calls(uses, false))
  {
    c := q.Clone();
    start := c.AsView();
    UseBoth(q, c, uses);
  }
}
