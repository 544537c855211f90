/** `sqlAll` on a database whose queries answer from tables: when it succeeds and what
    the accessors of its nodes answer, in terms of what is stored. */
module TableQuerying {
  import opened Prelude
  import opened RowCodec
  import opened QuerySpec
  import opened Entities
  import opened Loading
  import opened EagerLoading
  import opened AccountQuerying
  import M2M = LoadM2M
  import M2O = LoadM2O
  import O2M = LoadO2M

  /** The tables behind the edges of an account. */
  datatype Tables = Tables(links: Table<M2M.JoinRow>, proxies: Table<M2O.ProxyRecord>, logs: Table<O2M.UsageLogRecord>)

  /** The child queries of an account query in this state answer from the tables, select
      valid fields and read groups that decode, through a query nobody loaded groups
      through before. */
  ghost predicate BackedBy(c: Children, s: QueryState, tables: Tables) {
    && (c.groups != null ==> GroupsBacked(c.groups, s.groups, s.groupFields, tables.links))
    && (c.proxy != null ==>
          M2O.Backed(c.proxy, tables.proxies) && InvalidField(M2O.PROXY_COLUMNS, s.proxyFields).None?)
    && (c.logs != null ==>
          O2M.Backed(c.logs, tables.logs) && InvalidField(O2M.USAGE_LOG_COLUMNS, s.logFields).None?)
  }

  ghost predicate GroupsBacked(query: M2M.GroupQuery, predicates: seq<Predicate>, fields: seq<Column>,
                               links: Table<M2M.JoinRow>) {
    && M2M.Backed(query, links) && InvalidField(M2M.GROUP_COLUMNS, fields).None?
    && M2M.Decodable(query.js, ColumnsOf(M2M.GROUP_COLUMNS, true, fields, []), links)
    && (forall p <- predicates :: p.Filter?)
  }

  // ------------------------------------------------------------------------
  // No edge fails
  // ------------------------------------------------------------------------

  lemma {:induction false} ProxiesLoad(query: M2O.ProxyQuery, predicates: seq<Predicate>, fields: seq<Column>,
                                       fks: seq<Option<int>>, proxies: Table<M2O.ProxyRecord>)
    requires M2O.Backed(query, proxies) && InvalidField(M2O.PROXY_COLUMNS, fields).None?
    ensures M2O.LoadProxyError(query, M2O.Restricted(predicates, M2O.AskedIDs(fks)), fields, fks) == None
  {
    var ids := M2O.AskedIDs(fks);
    if ids != [] {
      M2O.OnlyAskedReturned(proxies, predicates, ids);
      M2O.AllReferred(Matching(proxies, proxies.records, predicates + [Among(ids)]), fks);
    }
  }

  lemma {:induction false} LogsLoad(query: O2M.UsageLogQuery, predicates: seq<Predicate>, fields: seq<Column>,
                                    ids: seq<int>, logs: Table<O2M.UsageLogRecord>)
    requires O2M.Backed(query, logs) && InvalidField(O2M.USAGE_LOG_COLUMNS, fields).None?
    ensures O2M.LoadUsageLogsError(query, predicates + [Among(ids)], O2M.WithKey(fields, FieldAccountID), ids) == None
  {
    O2M.WithKeyValid(fields);
    O2M.AllParented(logs, predicates, ids, Matching(logs, logs.records, predicates + [Among(ids)]));
  }

  /** No requested edge of a query on tables fails. */
  lemma {:induction false} NoEdgeFails(c: Children, s: QueryState, ids: seq<int>, fks: seq<Option<int>>, tables: Tables)
    requires BackedBy(c, s, tables)
    ensures FirstError(c, s, ids, fks) == None
  {
    if c.groups != null {
      M2M.AnswerLoads(c.groups, tables.links, s.groups, s.groupFields, ids);
    }
    if c.proxy != null {
      ProxiesLoad(c.proxy, s.proxy, s.proxyFields, fks, tables.proxies);
    }
    if c.logs != null {
      LogsLoad(c.logs, s.logs, s.logFields, ids, tables.logs);
    }
  }

  // ------------------------------------------------------------------------
  // What the accessors answer
  // ------------------------------------------------------------------------

  /** The groups stored for this ID that satisfy the predicates, each once and no
      other; none on a node that shares its ID with a later one. */
  ghost predicate StoredGroups(node: Account, requested: bool, links: Table<M2M.JoinRow>, predicates: seq<Predicate>,
                               ids: seq<int>, i: nat)
    requires i < |ids| && |node.loadedTypes| == 3
    reads node`Groups, node`loadedTypes
  {
    if !requested then node.GroupsOrErr() == Err(NotLoaded("groups"))
    else
      && node.GroupsOrErr().Ok?
      && var held := M2M.GroupIDList(node.GroupsOrErr().value);
         if exists j :: i < j < |ids| && ids[j] == ids[i] then held == []
         else NoDup(held) &&
              forall g :: g in held <==> g in M2M.GroupIDs(Stored(links, links.records, predicates, ids[i]))
  }

  /** The stored proxy the foreign key names, if it satisfies the predicates. */
  ghost predicate StoredProxyAnswer(node: Account, requested: bool, proxies: Table<M2O.ProxyRecord>,
                                    predicates: seq<Predicate>, fk: Option<int>)
    requires |node.loadedTypes| == 3
    reads node`Proxy, node`loadedTypes
  {
    if !requested then node.ProxyOrErr() == Err(NotLoaded("proxy"))
    else if M2O.Found(proxies, predicates, fk) then node.ProxyOrErr().Ok? && fk == Some(node.ProxyOrErr().value.ID)
    else node.ProxyOrErr() == Err(NotFound("proxy"))
  }

  /** The usage logs stored for this ID that satisfy the predicates, in order; none on
      a node that shares its ID with a later one. */
  ghost predicate StoredLogs(node: Account, requested: bool, logs: Table<O2M.UsageLogRecord>,
                             predicates: seq<Predicate>, ids: seq<int>, i: nat)
    requires i < |ids| && |node.loadedTypes| == 3
    reads node`UsageLogs, node`loadedTypes
  {
    if !requested then node.UsageLogsOrErr() == Err(NotLoaded("usage_logs"))
    else
      && node.UsageLogsOrErr().Ok?
      && O2M.LogIDs(node.UsageLogsOrErr().value) ==
         if exists j :: i < j < |ids| && ids[j] == ids[i] then []
         else O2M.RecordIDs(Stored(logs, logs.records, predicates, ids[i]))
  }

  lemma {:induction false} KeptIsLast(ids: seq<int>, i: nat)
    requires i < |ids|
    ensures IsKept(ids, i) <==> !exists j :: i < j < |ids| && ids[j] == ids[i]
  {
  }

  lemma {:induction false} GroupsAreStored(node: Account, query: M2M.GroupQuery, predicates: seq<Predicate>,
                                           fields: seq<Column>, ids: seq<int>, i: nat, links: Table<M2M.JoinRow>)
    requires i < |ids| && |node.loadedTypes| == 3 && GroupsBacked(query, predicates, fields, links)
    requires GroupsAnswer(node, query, predicates + [Among(ids)], ids, i)
    ensures StoredGroups(node, true, links, predicates, ids, i)
  {
    M2M.AnswerLoads(query, links, predicates, fields, ids);
    KeptIsLast(ids, i);
    M2M.GroupsOfMeaning(Matching(links, links.records, predicates + [Among(ids)]), ids[i]);
    forall g {
      M2M.PairedIsStored(links, predicates, ids, ids[i], g);
    }
  }

  lemma {:induction false} ProxyIsStored(node: Account, query: M2O.ProxyQuery, predicates: seq<Predicate>,
                                         fields: seq<Column>, fks: seq<Option<int>>, i: nat,
                                         proxies: Table<M2O.ProxyRecord>)
    requires i < |fks| && |node.loadedTypes| == 3
    requires M2O.Backed(query, proxies) && InvalidField(M2O.PROXY_COLUMNS, fields).None?
    requires ProxyAnswer(node, query, M2O.Restricted(predicates, M2O.AskedIDs(fks)), fields, fks, i)
    ensures StoredProxyAnswer(node, true, proxies, predicates, fks[i])
  {
    if fks[i].Some? {
      M2O.AskedAreFirstOccurrences(fks);
      assert fks[i] in fks;
      M2O.FoundIsReturned(proxies, predicates, M2O.AskedIDs(fks), fks[i].value);
    }
  }

  lemma {:induction false} LogsAreStored(node: Account, query: O2M.UsageLogQuery, predicates: seq<Predicate>,
                                         fields: seq<Column>, ids: seq<int>, i: nat, logs: Table<O2M.UsageLogRecord>)
    requires i < |ids| && |node.loadedTypes| == 3
    requires O2M.Backed(query, logs) && InvalidField(O2M.USAGE_LOG_COLUMNS, fields).None?
    requires UsageLogsAnswer(node, query, predicates + [Among(ids)], O2M.WithKey(fields, FieldAccountID), ids, i)
    ensures StoredLogs(node, true, logs, predicates, ids, i)
  {
    O2M.WithKeyValid(fields);
    KeptIsLast(ids, i);
    O2M.AnsweredChildren(logs, predicates, ids, ids[i]);
  }

  /** Every accessor of every node answers from the tables. */
  ghost predicate AllStored(nodes: seq<Account>, c: Children, s: QueryState, ids: seq<int>, fks: seq<Option<int>>,
                            tables: Tables)
    reads nodes`Groups, nodes`Proxy, nodes`UsageLogs, nodes`loadedTypes
  {
    |nodes| == |ids| == |fks| &&
    forall i :: 0 <= i < |nodes| ==>
      && |nodes[i].loadedTypes| == 3
      && StoredGroups(nodes[i], c.groups != null, tables.links, s.groups, ids, i)
      && StoredProxyAnswer(nodes[i], c.proxy != null, tables.proxies, s.proxy, fks[i])
      && StoredLogs(nodes[i], c.logs != null, tables.logs, s.logs, ids, i)
  }

  lemma {:induction false} AnswersAreStored(nodes: seq<Account>, c: Children, s: QueryState, ids: seq<int>,
                                            fks: seq<Option<int>>, tables: Tables)
    requires BackedBy(c, s, tables) && AnswersAre(nodes, c, ids, fks, AllAsked(c, s, ids, fks))
    ensures AllStored(nodes, c, s, ids, fks, tables)
  {
    forall i | 0 <= i < |nodes|
      ensures StoredGroups(nodes[i], c.groups != null, tables.links, s.groups, ids, i)
      ensures StoredProxyAnswer(nodes[i], c.proxy != null, tables.proxies, s.proxy, fks[i])
      ensures StoredLogs(nodes[i], c.logs != null, tables.logs, s.logs, ids, i)
    {
      if c.groups != null {
        GroupsAreStored(nodes[i], c.groups, s.groups, s.groupFields, ids, i, tables.links);
      }
      if c.proxy != null {
        ProxyIsStored(nodes[i], c.proxy, s.proxy, s.proxyFields, fks, i, tables.proxies);
      }
      if c.logs != null {
        LogsAreStored(nodes[i], c.logs, s.logs, s.logFields, ids, i, tables.logs);
      }
    }
  }

  // ------------------------------------------------------------------------
  // sqlAll
  // ------------------------------------------------------------------------

  /** `sqlAll` on tables succeeds whenever its rows decode. There is a node for every
      row that holds its fields, and the accessors answer with what the tables store
      for the keys of the row and the predicates of the child queries. */
  method SqlAllFromTables(q: AccountQuery, ghost tables: Tables) returns (r: Result<seq<Account>, LoadError>)
    requires q.rows.Ok? && AllWellTyped(q.StoredRows()) && BackedBy(q.Edges(), q.State(), tables)
    requires forall i :: 0 <= i < |q.rows.value| ==> DecodeRow(q.js, q.Columns(), q.rows.value[i]).Ok?
    modifies GroupsQuery(q.withGroups)`Predicates, ProxyQuery(q.withProxy)`Predicates
    modifies LogQuery(q.withUsageLogs)`Fields, LogQuery(q.withUsageLogs)`Predicates
    ensures r.Ok? && |r.value| == |q.rows.value|
    ensures AllDecoded(r.value, q.js, old(q.Columns()), q.rows.value)
    ensures AllStored(r.value, q.Edges(), old(q.State()), StoredIDs(q.rows.value), StoredProxies(q.rows.value), tables)
  {
    ghost var s, rows := q.State(), q.rows.value;
    NoEdgeFails(q.Edges(), s, StoredIDs(rows), StoredProxies(rows), tables);
    ReadErrorAt(q.js, q.Columns(), rows, |rows|);
    r := q.SqlAll();
    AnswersAreStored(r.value, q.Edges(), s, StoredIDs(rows), StoredProxies(rows), tables);
  }
}
