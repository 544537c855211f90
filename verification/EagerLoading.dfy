/** Loading the requested edges of some accounts, one after the other, and what
    the accessors answer afterwards. */
module EagerLoading {
  import opened Prelude
  import opened RowCodec
  import opened QuerySpec
  import opened Entities
  import opened Loading
  import M2M = LoadM2M
  import M2O = LoadM2O
  import O2M = LoadO2M

  // ------------------------------------------------------------------------
  // What the nodes hold and what their accessors must answer
  // ------------------------------------------------------------------------

  /** What was read into a node: its fields, the cells its pointers point at and the
      edges it was marked with. */
  datatype Snapshot = Snapshot(row: AccountRow, notes: StringCell?, proxyID: IntCell?, loadedTypes: seq<bool>)

  /** What is in a node now. */
  ghost function Shown(n: Account): Snapshot
    reads n`ID, n`CreatedAt, n`UpdatedAt, n`Name, n`Notes, n`loadedTypes
    reads n`Credentials, n`ProxyID, n`Schedulable, n`selectValues
  {
    Snapshot(n.Row(), n.Notes, n.ProxyID, n.loadedTypes)
  }

  ghost function Snapshots(nodes: seq<Account>): (r: seq<Snapshot>)
    reads nodes`ID, nodes`CreatedAt, nodes`UpdatedAt, nodes`Name, nodes`Notes, nodes`loadedTypes
    reads nodes`Credentials, nodes`ProxyID, nodes`Schedulable, nodes`selectValues
    ensures |r| == |nodes|
    ensures forall i :: 0 <= i < |nodes| ==> r[i] == Shown(nodes[i])
  {
    if nodes == [] then []
    else
      var n := nodes[|nodes|-1];
      Snapshots(nodes[..|nodes|-1]) + [Shown(n)]
  }

  /** The nodes still have what was read into them. */
  ghost predicate Holding(nodes: seq<Account>, snapshots: seq<Snapshot>)
    reads nodes`ID, nodes`CreatedAt, nodes`UpdatedAt, nodes`Name, nodes`Notes, nodes`loadedTypes
    reads nodes`Credentials, nodes`ProxyID, nodes`Schedulable, nodes`selectValues
  {
    |snapshots| == |nodes| &&
    forall i :: 0 <= i < |nodes| ==> snapshots[i] == Shown(nodes[i])
  }

  /** The nodes are distinct objects that know which edges were requested. */
  ghost predicate Marked(nodes: seq<Account>, loadedTypes: seq<bool>)
    reads nodes`loadedTypes
  {
    NoDup(nodes) && |loadedTypes| == 3 && forall i :: 0 <= i < |nodes| ==> nodes[i].loadedTypes == loadedTypes
  }

  /** Node i is the one an index by ID keeps. */
  predicate IsKept(ids: seq<int>, i: nat)
    requires i < |ids|
  {
    LastIndex(ids, ids[i]) == i
  }

  /** `asked` are the predicates the child query was executed with. */
  ghost predicate GroupsAnswer(node: Account, query: M2M.GroupQuery?, asked: seq<Predicate>, ids: seq<int>, i: nat)
    requires i < |ids| && |node.loadedTypes| == 3
    reads node`Groups, node`loadedTypes
  {
    if query == null then node.GroupsOrErr() == Err(NotLoaded("groups"))
    else
      && query.join(asked).Ok? && node.GroupsOrErr().Ok?
      && M2M.GroupIDList(node.GroupsOrErr().value) ==
         if IsKept(ids, i) then M2M.GroupsOf(query.join(asked).value, ids[i]) else []
  }

  /** The proxy whose ID is the stored foreign key. */
  ghost predicate ProxyAnswer(node: Account, query: M2O.ProxyQuery?, asked: seq<Predicate>, fields: seq<Column>,
                              fks: seq<Option<int>>, i: nat)
    requires i < |fks| && |node.loadedTypes| == 3
    reads node`Proxy, node`loadedTypes
  {
    if query == null then node.ProxyOrErr() == Err(NotLoaded("proxy"))
    else if fks[i].None? then node.ProxyOrErr() == Err(NotFound("proxy"))
    else
      var answer := M2O.Answer(query.rows, asked, fields);
      && answer.Ok?
      && if fks[i].value in M2O.RecordIDs(answer.value)
         then node.ProxyOrErr().Ok? && node.ProxyOrErr().value.ID == fks[i].value
         else node.ProxyOrErr() == Err(NotFound("proxy"))
  }

  /** `fields` is what the child query selects, its foreign key included. */
  ghost predicate UsageLogsAnswer(node: Account, query: O2M.UsageLogQuery?, asked: seq<Predicate>, fields: seq<Column>,
                                  ids: seq<int>, i: nat)
    requires i < |ids| && |node.loadedTypes| == 3
    reads node`UsageLogs, node`loadedTypes
  {
    if query == null then node.UsageLogsOrErr() == Err(NotLoaded("usage_logs"))
    else
      var answer := O2M.Answer(query.rows, asked, fields);
      && answer.Ok? && node.UsageLogsOrErr().Ok?
      && O2M.LogIDs(node.UsageLogsOrErr().value) ==
         if IsKept(ids, i) then O2M.ChildrenOf(O2M.RecordIDs(answer.value), O2M.RecordKeys(answer.value), ids[i])
         else []
  }

  /** Every node answers as it must, edge by edge. */
  ghost predicate AllGroupsAnswer(nodes: seq<Account>, query: M2M.GroupQuery?, asked: seq<Predicate>, ids: seq<int>)
    reads nodes`Groups, nodes`loadedTypes
  {
    |nodes| == |ids| &&
    forall i :: 0 <= i < |nodes| ==> |nodes[i].loadedTypes| == 3 && GroupsAnswer(nodes[i], query, asked, ids, i)
  }

  ghost predicate AllProxiesAnswer(nodes: seq<Account>, query: M2O.ProxyQuery?, asked: seq<Predicate>,
                                   fields: seq<Column>,
                                   fks: seq<Option<int>>)
    reads nodes`Proxy, nodes`loadedTypes
  {
    |nodes| == |fks| &&
    forall i :: 0 <= i < |nodes| ==> |nodes[i].loadedTypes| == 3 && ProxyAnswer(nodes[i], query, asked, fields, fks, i)
  }

  ghost predicate AllUsageLogsAnswer(nodes: seq<Account>, query: O2M.UsageLogQuery?, asked: seq<Predicate>,
                                     fields: seq<Column>, ids: seq<int>)
    reads nodes`UsageLogs, nodes`loadedTypes
  {
    |nodes| == |ids| &&
    forall i :: 0 <= i < |nodes| ==>
      |nodes[i].loadedTypes| == 3 && UsageLogsAnswer(nodes[i], query, asked, fields, ids, i)
  }

  lemma {:induction false} OwnerIsKept(nodes: seq<Account>, ids: seq<int>, i: nat)
    requires i < |nodes| == |ids| && NoDup(nodes)
    ensures Owner(nodes, ids, ids[i]) == Some(nodes[i]) <==> IsKept(ids, i)
  {
    assert ids[i] in ids;
  }

  // ------------------------------------------------------------------------
  // What the child queries are asked, and how loading ends
  // ------------------------------------------------------------------------

  /** The child queries of an account query; one that was not requested is null. */
  datatype Children = Children(groups: M2M.GroupQuery?, proxy: M2O.ProxyQuery?, logs: O2M.UsageLogQuery?)

  /** The predicates and fields of the child queries, empty where there is none. */
  datatype QueryState = QueryState(
    groups: seq<Predicate>, groupFields: seq<Column>,
    proxy: seq<Predicate>, proxyFields: seq<Column>,
    logs: seq<Predicate>, logFields: seq<Column>)

  function StateOf(c: Children): QueryState
    reads c.groups, c.proxy, c.logs
  {
    QueryState(
      if c.groups == null then [] else c.groups.Predicates, if c.groups == null then [] else c.groups.Fields,
      if c.proxy == null then [] else c.proxy.Predicates, if c.proxy == null then [] else c.proxy.Fields,
      if c.logs == null then [] else c.logs.Predicates, if c.logs == null then [] else c.logs.Fields)
  }

  /** The state after an edge was asked for; asking leaves the other queries alone. */
  function GroupsAsked(c: Children, s: QueryState, ids: seq<int>): QueryState {
    if c.groups == null then s else s.(groups := M2M.Restricted(s.groups, ids))
  }

  function ProxyAsked(c: Children, s: QueryState, fks: seq<Option<int>>): QueryState {
    if c.proxy == null then s else s.(proxy := M2O.Restricted(s.proxy, M2O.AskedIDs(fks)))
  }

  function LogsAsked(c: Children, s: QueryState, ids: seq<int>): QueryState {
    if c.logs == null then s
    else s.(logs := s.logs + [Among(ids)], logFields := O2M.WithKey(s.logFields, FieldAccountID))
  }

  function AllAsked(c: Children, s: QueryState, ids: seq<int>, fks: seq<Option<int>>): QueryState {
    LogsAsked(c, ProxyAsked(c, GroupsAsked(c, s, ids), fks), ids)
  }

  /** The error of loading an edge, if it was requested. */
  function GroupsError(c: Children, s: QueryState, ids: seq<int>): Option<LoadError> {
    if c.groups == null then None
    else M2M.LoadGroupsError(c.groups, M2M.Restricted(s.groups, ids), s.groupFields, ids)
  }

  function ProxyError(c: Children, s: QueryState, fks: seq<Option<int>>): Option<LoadError> {
    if c.proxy == null then None
    else M2O.LoadProxyError(c.proxy, M2O.Restricted(s.proxy, M2O.AskedIDs(fks)), s.proxyFields, fks)
  }

  function LogsError(c: Children, s: QueryState, ids: seq<int>): Option<LoadError> {
    if c.logs == null then None
    else O2M.LoadUsageLogsError(c.logs, s.logs + [Among(ids)], O2M.WithKey(s.logFields, FieldAccountID), ids)
  }

  /** The error of loading all requested edges: that of the first that fails, in the
      order groups, proxy, usage logs. */
  function FirstError(c: Children, s: QueryState, ids: seq<int>, fks: seq<Option<int>>): Option<LoadError> {
    OrElse(GroupsError(c, s, ids), OrElse(ProxyError(c, s, fks), LogsError(c, s, ids)))
  }

  /** The state the child queries are left with: every query reached keeps what it
      was asked, and those after the first edge that fails are as before. */
  function Left(c: Children, s: QueryState, ids: seq<int>, fks: seq<Option<int>>): QueryState {
    if GroupsError(c, s, ids).Some? then GroupsAsked(c, s, ids)
    else if ProxyError(c, s, fks).Some? then ProxyAsked(c, GroupsAsked(c, s, ids), fks)
    else AllAsked(c, s, ids, fks)
  }

  // ------------------------------------------------------------------------
  // Loading the edges
  // ------------------------------------------------------------------------

  /** What is known before the first edge is loaded: the keys, marks and fields of
      the nodes, and the child queries with their state. */
  datatype Plan = Plan(ids: seq<int>, fks: seq<Option<int>>, loadedTypes: seq<bool>, snapshots: seq<Snapshot>,
                       c: Children, before: QueryState, asked: QueryState,
                       groupsError: Option<LoadError>, proxyError: Option<LoadError>, logsError: Option<LoadError>)

  /** The plan is about these nodes, as its snapshots show them, and about the edges
      its child queries request. */
  ghost predicate Planned(nodes: seq<Account>, plan: Plan) {
    && NoDup(nodes) && |nodes| == |plan.snapshots| == |plan.ids| == |plan.fks|
    && (forall i :: 0 <= i < |nodes| ==> Shows(plan.snapshots[i], plan, i))
    && plan.loadedTypes == [plan.c.groups != null, plan.c.proxy != null, plan.c.logs != null]
    && plan.asked == AllAsked(plan.c, plan.before, plan.ids, plan.fks)
    && plan.groupsError == GroupsError(plan.c, plan.before, plan.ids)
    && plan.proxyError == ProxyError(plan.c, plan.before, plan.fks)
    && plan.logsError == LogsError(plan.c, plan.before, plan.ids)
  }

  predicate Shows(snapshot: Snapshot, plan: Plan, i: nat)
    requires i < |plan.ids| == |plan.fks|
  {
    && snapshot.row.ID == plan.ids[i] && snapshot.loadedTypes == plan.loadedTypes
    && (plan.c.proxy != null ==> snapshot.row.ProxyID == plan.fks[i])
  }

  lemma {:induction false} ShownIsHeld(nodes: seq<Account>, plan: Plan)
    requires Planned(nodes, plan) && Holding(nodes, plan.snapshots)
    ensures plan.ids == IDs(nodes) && Marked(nodes, plan.loadedTypes)
    ensures plan.c.proxy != null ==> plan.fks == M2O.ForeignKeys(nodes)
  {
    forall i | 0 <= i < |nodes|
      ensures nodes[i].ID == plan.ids[i] && nodes[i].loadedTypes == plan.loadedTypes
      ensures plan.c.proxy != null ==> nodes[i].ForeignKey() == plan.fks[i]
    {
      assert plan.snapshots[i] == Shown(nodes[i]);
      assert Shows(plan.snapshots[i], plan, i);
    }
  }

  ghost predicate NoProxies(nodes: seq<Account>)
    reads nodes`Proxy
  {
    forall i :: 0 <= i < |nodes| ==> nodes[i].Proxy == null
  }

  /** The child query as a frame: none if the edge was not requested. */
  ghost function GroupsQuery(query: M2M.GroupQuery?): set<M2M.GroupQuery> {
    if query == null then {} else {query}
  }

  ghost function ProxyQuery(query: M2O.ProxyQuery?): set<M2O.ProxyQuery> {
    if query == null then {} else {query}
  }

  ghost function LogQuery(query: O2M.UsageLogQuery?): set<O2M.UsageLogQuery> {
    if query == null then {} else {query}
  }

  /** The query is in this state, if there is one. */
  ghost predicate GroupsIn(query: M2M.GroupQuery?, s: QueryState)
    reads GroupsQuery(query)`Predicates, GroupsQuery(query)`Fields
  {
    query != null ==> query.Predicates == s.groups && query.Fields == s.groupFields
  }

  ghost predicate ProxyIn(query: M2O.ProxyQuery?, s: QueryState)
    reads ProxyQuery(query)`Predicates, ProxyQuery(query)`Fields
  {
    query != null ==> query.Predicates == s.proxy && query.Fields == s.proxyFields
  }

  ghost predicate LogsIn(query: O2M.UsageLogQuery?, s: QueryState)
    reads LogQuery(query)`Predicates, LogQuery(query)`Fields
  {
    query != null ==> query.Predicates == s.logs && query.Fields == s.logFields
  }

  ghost predicate AnswersAre(nodes: seq<Account>, c: Children, ids: seq<int>, fks: seq<Option<int>>, asked: QueryState)
    reads nodes`Groups, nodes`Proxy, nodes`UsageLogs, nodes`loadedTypes
  {
    && AllGroupsAnswer(nodes, c.groups, asked.groups, ids)
    && AllProxiesAnswer(nodes, c.proxy, asked.proxy, asked.proxyFields, fks)
    && AllUsageLogsAnswer(nodes, c.logs, asked.logs, asked.logFields, ids)
  }

  /** The requested edges, one after the other: the groups, then the others. */
  method LoadEdges(nodes: seq<Account>, c: Children, ghost plan: Plan) returns (err: Option<LoadError>)
    requires Holding(nodes, plan.snapshots) && NoProxies(nodes) && Planned(nodes, plan) && c == plan.c
    requires GroupsIn(c.groups, plan.before) && ProxyIn(c.proxy, plan.before) && LogsIn(c.logs, plan.before)
    modifies nodes`Groups, nodes`Proxy, nodes`UsageLogs
    modifies GroupsQuery(c.groups)`Predicates, ProxyQuery(c.proxy)`Predicates
    modifies LogQuery(c.logs)`Fields, LogQuery(c.logs)`Predicates
    ensures Holding(nodes, plan.snapshots)
    ensures err == OrElse(plan.groupsError, OrElse(plan.proxyError, plan.logsError))
    ensures GroupsIn(c.groups, plan.asked)
    ensures ProxyIn(c.proxy, if plan.groupsError.Some? then plan.before else plan.asked)
    ensures LogsIn(c.logs, if plan.groupsError.Some? || plan.proxyError.Some? then plan.before else plan.asked)
    ensures err.None? ==> AnswersAre(nodes, c, plan.ids, plan.fks, plan.asked)
  {
    if c.groups != null {
      err := LoadGroups(nodes, c, plan);
      if err.Some? {
        return;
      }
    }
    err := LoadProxyAndLogs(nodes, c, plan);
  }

  /** The groups. The other queries and the fields of the nodes are left alone. */
  method LoadGroups(nodes: seq<Account>, c: Children, ghost plan: Plan) returns (err: Option<LoadError>)
    requires Holding(nodes, plan.snapshots) && NoProxies(nodes) && Planned(nodes, plan)
    requires c == plan.c && c.groups != null
    requires GroupsIn(c.groups, plan.before) && ProxyIn(c.proxy, plan.before) && LogsIn(c.logs, plan.before)
    modifies nodes`Groups, c.groups`Predicates
    ensures Holding(nodes, plan.snapshots) && NoProxies(nodes)
    ensures GroupsIn(c.groups, plan.asked) && ProxyIn(c.proxy, plan.before) && LogsIn(c.logs, plan.before)
    ensures err == plan.groupsError
    ensures err.None? ==> AllGroupsAnswer(nodes, c.groups, plan.asked.groups, plan.ids)
  {
    err := AskGroups(nodes, c.groups, plan);
  }

  /** The call of the loader, and what the accessors then answer. */
  method AskGroups(nodes: seq<Account>, query: M2M.GroupQuery, ghost plan: Plan) returns (err: Option<LoadError>)
    requires Holding(nodes, plan.snapshots) && Planned(nodes, plan)
    requires query == plan.c.groups && GroupsIn(query, plan.before)
    modifies nodes`Groups, query`Predicates
    ensures GroupsIn(query, plan.asked) && err == plan.groupsError
    ensures err.None? ==> AllGroupsAnswer(nodes, query, plan.asked.groups, plan.ids)
  {
    ShownIsHeld(nodes, plan);
    ghost var neighbors;
    err, neighbors := M2M.LoadGroups(query, nodes);
    assert IDs(nodes) == plan.ids && Marked(nodes, plan.loadedTypes) && GroupsIn(query, plan.asked);
    if err.None? {
      GroupsOutcome(query, plan, nodes, neighbors);
    }
  }

  lemma {:induction false} GroupsOutcome(query: M2M.GroupQuery, plan: Plan, nodes: seq<Account>, neighbors: seq<Group>)
    requires |nodes| == |plan.ids| && Marked(nodes, plan.loadedTypes) && plan.loadedTypes[0]
    requires query.join(plan.asked.groups).Ok?
    requires M2M.GroupsLoaded(nodes, plan.ids, query.join(plan.asked.groups).value, neighbors)
    ensures AllGroupsAnswer(nodes, query, plan.asked.groups, plan.ids)
  {
    forall i | 0 <= i < |nodes|
      ensures GroupsAnswer(nodes[i], query, plan.asked.groups, plan.ids, i)
    {
      OwnerIsKept(nodes, plan.ids, i);
    }
  }

  method LoadProxyAndLogs(nodes: seq<Account>, c: Children, ghost plan: Plan) returns (err: Option<LoadError>)
    requires Holding(nodes, plan.snapshots) && NoProxies(nodes) && Planned(nodes, plan) && c == plan.c
    requires ProxyIn(c.proxy, plan.before) && LogsIn(c.logs, plan.before)
    requires AllGroupsAnswer(nodes, c.groups, plan.asked.groups, plan.ids)
    modifies nodes`Proxy, nodes`UsageLogs
    modifies ProxyQuery(c.proxy)`Predicates, LogQuery(c.logs)`Fields, LogQuery(c.logs)`Predicates
    ensures Holding(nodes, plan.snapshots)
    ensures err == OrElse(plan.proxyError, plan.logsError)
    ensures ProxyIn(c.proxy, plan.asked)
    ensures LogsIn(c.logs, if plan.proxyError.Some? then plan.before else plan.asked)
    ensures err.None? ==> AnswersAre(nodes, c, plan.ids, plan.fks, plan.asked)
  {
    if c.proxy != null {
      err := LoadProxy(nodes, c, plan);
      if err.Some? {
        return;
      }
    }
    err := LoadRest(nodes, c, plan);
  }

  /** The proxy. The answers of the groups and the usage-log query are left alone. */
  method LoadProxy(nodes: seq<Account>, c: Children, ghost plan: Plan) returns (err: Option<LoadError>)
    requires Holding(nodes, plan.snapshots) && NoProxies(nodes) && Planned(nodes, plan)
    requires c == plan.c && c.proxy != null
    requires ProxyIn(c.proxy, plan.before) && LogsIn(c.logs, plan.before)
    requires AllGroupsAnswer(nodes, c.groups, plan.asked.groups, plan.ids)
    modifies nodes`Proxy, c.proxy`Predicates
    ensures Holding(nodes, plan.snapshots) && AllGroupsAnswer(nodes, c.groups, plan.asked.groups, plan.ids)
    ensures ProxyIn(c.proxy, plan.asked) && LogsIn(c.logs, plan.before)
    ensures err == plan.proxyError
    ensures err.None? ==> AllProxiesAnswer(nodes, c.proxy, plan.asked.proxy, plan.asked.proxyFields, plan.fks)
  {
    err := AskProxy(nodes, c.proxy, plan);
  }

  /** The call of the loader, and what the accessors then answer. */
  method AskProxy(nodes: seq<Account>, query: M2O.ProxyQuery, ghost plan: Plan) returns (err: Option<LoadError>)
    requires Holding(nodes, plan.snapshots) && NoProxies(nodes) && Planned(nodes, plan)
    requires query == plan.c.proxy && ProxyIn(query, plan.before)
    modifies nodes`Proxy, query`Predicates
    ensures ProxyIn(query, plan.asked) && err == plan.proxyError
    ensures err.None? ==> AllProxiesAnswer(nodes, query, plan.asked.proxy, plan.asked.proxyFields, plan.fks)
  {
    ShownIsHeld(nodes, plan);
    ghost var before := M2O.Proxies(nodes);
    ghost var neighbors, stop;
    err, neighbors, stop := M2O.LoadProxy(query, nodes);
    assert Marked(nodes, plan.loadedTypes) && ProxyIn(query, plan.asked);
    M2O.LoadErrorIsExact(query, plan.asked.proxy, plan.asked.proxyFields, neighbors, plan.fks, stop, err);
    if err.None? {
      ProxyOutcome(query, plan, nodes, before, neighbors);
    }
  }

  lemma {:induction false} ProxyOutcome(query: M2O.ProxyQuery, plan: Plan, nodes: seq<Account>, before: seq<Proxy?>,
                                        neighbors: seq<Proxy>)
    requires |nodes| == |plan.fks| == |before| && forall i :: 0 <= i < |before| ==> before[i] == null
    requires M2O.ProxiesLoaded(nodes, plan.fks, before, neighbors, |neighbors|)
    requires M2O.AskedIDs(plan.fks) != [] ==>
               var answer := M2O.Answer(query.rows, plan.asked.proxy, plan.asked.proxyFields);
               answer.Ok? && M2O.ProxyIDs(neighbors) == M2O.RecordIDs(answer.value)
    requires Marked(nodes, plan.loadedTypes) && plan.loadedTypes[1]
    ensures AllProxiesAnswer(nodes, query, plan.asked.proxy, plan.asked.proxyFields, plan.fks)
  {
    var fks := plan.fks;
    assert neighbors[..|neighbors|] == neighbors;
    M2O.AskedAreFirstOccurrences(fks);
    forall i | 0 <= i < |nodes|
      ensures ProxyAnswer(nodes[i], query, plan.asked.proxy, plan.asked.proxyFields, fks, i)
    {
      assert fks[i].Some? ==> fks[i] in fks && fks[i].value in M2O.AskedIDs(fks);
    }
  }

  method LoadRest(nodes: seq<Account>, c: Children, ghost plan: Plan) returns (err: Option<LoadError>)
    requires Holding(nodes, plan.snapshots) && Planned(nodes, plan) && c == plan.c && LogsIn(c.logs, plan.before)
    requires AllGroupsAnswer(nodes, c.groups, plan.asked.groups, plan.ids)
    requires AllProxiesAnswer(nodes, c.proxy, plan.asked.proxy, plan.asked.proxyFields, plan.fks)
    modifies nodes`UsageLogs, LogQuery(c.logs)`Fields, LogQuery(c.logs)`Predicates
    ensures Holding(nodes, plan.snapshots) && LogsIn(c.logs, plan.asked)
    ensures err == plan.logsError
    ensures err.None? ==> AnswersAre(nodes, c, plan.ids, plan.fks, plan.asked)
  {
    err := None;
    if c.logs != null {
      err := LoadLogs(nodes, c, plan);
    }
  }

  /** The usage logs. The answers of the other edges are left alone. */
  method LoadLogs(nodes: seq<Account>, c: Children, ghost plan: Plan) returns (err: Option<LoadError>)
    requires Holding(nodes, plan.snapshots) && Planned(nodes, plan)
    requires c == plan.c && c.logs != null && LogsIn(c.logs, plan.before)
    requires AllGroupsAnswer(nodes, c.groups, plan.asked.groups, plan.ids)
    requires AllProxiesAnswer(nodes, c.proxy, plan.asked.proxy, plan.asked.proxyFields, plan.fks)
    modifies nodes`UsageLogs, c.logs`Fields, c.logs`Predicates
    ensures Holding(nodes, plan.snapshots) && LogsIn(c.logs, plan.asked)
    ensures AllGroupsAnswer(nodes, c.groups, plan.asked.groups, plan.ids)
    ensures AllProxiesAnswer(nodes, c.proxy, plan.asked.proxy, plan.asked.proxyFields, plan.fks)
    ensures err == plan.logsError
    ensures err.None? ==> AllUsageLogsAnswer(nodes, c.logs, plan.asked.logs, plan.asked.logFields, plan.ids)
  {
    err := AskLogs(nodes, c.logs, plan);
  }

  /** The call of the loader, and what the accessors then answer. */
  method AskLogs(nodes: seq<Account>, query: O2M.UsageLogQuery, ghost plan: Plan) returns (err: Option<LoadError>)
    requires Holding(nodes, plan.snapshots) && Planned(nodes, plan)
    requires query == plan.c.logs && LogsIn(query, plan.before)
    modifies nodes`UsageLogs, query`Fields, query`Predicates
    ensures LogsIn(query, plan.asked) && err == plan.logsError
    ensures err.None? ==> AllUsageLogsAnswer(nodes, query, plan.asked.logs, plan.asked.logFields, plan.ids)
  {
    ShownIsHeld(nodes, plan);
    ghost var logs, stop;
    err, logs, stop := O2M.LoadUsageLogs(query, nodes);
    assert IDs(nodes) == plan.ids && Marked(nodes, plan.loadedTypes) && LogsIn(query, plan.asked);
    if err.None? {
      LogsOutcome(query, plan, nodes, logs);
    }
  }

  lemma {:induction false} LogsOutcome(query: O2M.UsageLogQuery, plan: Plan, nodes: seq<Account>, logs: seq<UsageLog>)
    requires |nodes| == |plan.ids| && Marked(nodes, plan.loadedTypes) && plan.loadedTypes[2]
    requires LogsIn(query, plan.asked) && O2M.Fetched(query, logs)
    requires O2M.LogsLoaded(nodes, plan.ids, logs, |logs|, None)
    requires O2M.Answer(query.rows, plan.asked.logs, plan.asked.logFields).Ok?
    ensures AllUsageLogsAnswer(nodes, query, plan.asked.logs, plan.asked.logFields, plan.ids)
  {
    assert logs[..|logs|] == logs && O2M.LogKeys(logs)[..|logs|] == O2M.LogKeys(logs);
    forall i | 0 <= i < |nodes|
      ensures UsageLogsAnswer(nodes[i], query, plan.asked.logs, plan.asked.logFields, plan.ids, i)
    {
      OwnerIsKept(nodes, plan.ids, i);
      O2M.ChildIDs(logs, O2M.Answer(query.rows, plan.asked.logs, plan.asked.logFields).value, plan.ids[i]);
    }
  }

  /** The empty state of a query that was not requested. */
  predicate Normal(c: Children, s: QueryState) {
    && (c.groups == null ==> s.groups == [] && s.groupFields == [])
    && (c.proxy == null ==> s.proxy == [] && s.proxyFields == [])
    && (c.logs == null ==> s.logs == [] && s.logFields == [])
  }

  /** The state of the child queries after loading, put together. */
  lemma {:induction false} StateIsLeft(nodes: seq<Account>, c: Children, plan: Plan)
    requires Planned(nodes, plan) && c == plan.c && Normal(c, plan.before)
    requires GroupsIn(c.groups, plan.asked)
    requires ProxyIn(c.proxy, if plan.groupsError.Some? then plan.before else plan.asked)
    requires LogsIn(c.logs, if plan.groupsError.Some? || plan.proxyError.Some? then plan.before else plan.asked)
    ensures StateOf(c) == Left(c, plan.before, plan.ids, plan.fks)
  {
  }

  // ------------------------------------------------------------------------
  // Asking twice
  // ------------------------------------------------------------------------

  /** Asking for the groups again, after any earlier load through the same queries:
      if the fields are valid and the query answers, the load panics on the first row
      there is. */
  lemma {:induction false} SecondGroupsError(c: Children, s: QueryState, ids: seq<int>, fks: seq<Option<int>>)
    requires c.groups != null
    ensures var again := s.groups + [Among(ids)] + [Among(ids)];
            GroupsError(c, Left(c, s, ids, fks), ids) ==
            match InvalidField(M2M.GROUP_COLUMNS, s.groupFields)
            case Some(f) => Some(ValidationError(f))
            case None =>
              match c.groups.join(again)
              case Err(e) => Some(e)
              case Ok(rows) => if rows == [] then None else Some(FailedAssertion)
  {
    var once := M2M.Restricted(s.groups, ids);
    LeftGroups(c, s, ids, fks);
    GroupsErrorAgain(c.groups, once, s.groupFields, ids);
  }

  lemma {:induction false} LeftGroups(c: Children, s: QueryState, ids: seq<int>, fks: seq<Option<int>>)
    requires c.groups != null
    ensures var left := Left(c, s, ids, fks);
            left.groups == M2M.Restricted(s.groups, ids) && left.groupFields == s.groupFields
  {
  }

  lemma {:induction false} GroupsErrorAgain(query: M2M.GroupQuery, once: seq<Predicate>, fields: seq<Column>,
                                            ids: seq<int>)
    requires M2M.Joins(once) > 0
    ensures var again := M2M.Restricted(once, ids);
            M2M.LoadGroupsError(query, again, fields, ids) ==
            match InvalidField(M2M.GROUP_COLUMNS, fields)
            case Some(f) => Some(ValidationError(f))
            case None =>
              match query.join(again)
              case Err(e) => Some(e)
              case Ok(rows) => if rows == [] then None else Some(FailedAssertion)
  {
    var again := M2M.Restricted(once, ids);
    if InvalidField(M2M.GROUP_COLUMNS, fields).None? && query.join(again).Ok? {
      M2M.ReusedQueryPanics(query, again, fields, ids);
    }
  }
}
