// How an account query fills the edges of the accounts it returned: one query per edge, joined
// to the accounts through an index (sub2api/backend/ent/account_query.go).
module EagerLoading {
  import opened Options

  datatype Group = Group(id: int, name: string)
  datatype Proxy = Proxy(id: int, host: string)
  datatype UsageLog = UsageLog(id: int, accountId: int)

  // One row of the group query: the join table's account id, then the group.
  datatype JoinRow = JoinRow(account: int, group: Group)

  // The error of a loader is that of its query, or names the id it did not ask for; a group row
  // of an account that was not asked for makes it follow a nil pointer.
  datatype Outcome = Done | QueryFailed | Unexpected(id: int) | NilAccount

  class Account {
    const id: int
    const proxyId: Option<int>
    var groups: seq<Group>
    var proxy: Option<Proxy>
    var usageLogs: seq<UsageLog>

    constructor (id: int, proxyId: Option<int>)
      ensures this.id == id && this.proxyId == proxyId
      ensures groups == [] && proxy == None && usageLogs == []
    {
      this.id, this.proxyId := id, proxyId;
      groups, proxy, usageLogs := [], None, [];
    }
  }

  /* ---------- the account an id stands for ---------- */

  // An index over the accounts keeps the last one of each id.
  function Holder(nodes: seq<Account>, id: int): (holder: Account?)
    ensures holder != null ==> holder in nodes && holder.id == id
  {
    if nodes == [] then null
    else if nodes[|nodes| - 1].id == id then nodes[|nodes| - 1]
    else Holder(nodes[..|nodes| - 1], id)
  }

  predicate Requested(nodes: seq<Account>, id: int) {
    exists i :: 0 <= i < |nodes| && nodes[i].id == id
  }

  lemma {:induction false} HolderExists(nodes: seq<Account>, id: int)
    ensures Holder(nodes, id) != null <==> Requested(nodes, id)
  {
    if nodes != [] {
      var front := nodes[..|nodes| - 1];
      HolderExists(front, id);
      assert forall i :: 0 <= i < |front| ==> front[i] == nodes[i];
    }
  }

  predicate DistinctIds(nodes: seq<Account>) {
    forall i, j :: 0 <= i < j < |nodes| ==> nodes[i].id != nodes[j].id
  }

  lemma {:induction false} DistinctHolders(nodes: seq<Account>, k: nat)
    requires DistinctIds(nodes) && k < |nodes|
    ensures Holder(nodes, nodes[k].id) == nodes[k]
  {
    if k < |nodes| - 1 {
      assert nodes[..|nodes| - 1][k] == nodes[k];
      DistinctHolders(nodes[..|nodes| - 1], k);
    }
  }

  ghost predicate Indexes(byId: map<int, Account>, nodes: seq<Account>) {
    forall id :: if id in byId then byId[id] == Holder(nodes, id) else Holder(nodes, id) == null
  }

  /* ---------- groups: many to many ---------- */

  predicate Joins(rows: seq<JoinRow>, account: int, group: int) {
    exists i :: 0 <= i < |rows| && rows[i].account == account && rows[i].group.id == group
  }

  // The nested-loop join: every returned group that some row joins to the account.
  function Joined(rows: seq<JoinRow>, account: int, ns: seq<Group>): seq<Group> {
    if ns == [] then []
    else
      var n := ns[|ns| - 1];
      Joined(rows, account, ns[..|ns| - 1]) + if Joins(rows, account, n.id) then [n] else []
  }

  // What the index says of one account; all but the last account of an id get nothing.
  function Held(nodes: seq<Account>, rows: seq<JoinRow>, a: Account, ns: seq<Group>): seq<Group> {
    if Holder(nodes, a.id) == a then Joined(rows, a.id, ns) else []
  }

  // The accounts indexed under a group.
  function Linked(nodes: seq<Account>, rows: seq<JoinRow>, group: int): set<Account?> {
    if rows == [] then {}
    else
      Linked(nodes, rows[..|rows| - 1], group)
      + if rows[|rows| - 1].group.id == group then {Holder(nodes, rows[|rows| - 1].account)} else {}
  }

  // The groups of the rows, each where it was first seen.
  function Found(rows: seq<JoinRow>): (groups: seq<Group>) {
    if rows == [] then []
    else
      var front, g := Found(rows[..|rows| - 1]), rows[|rows| - 1].group;
      if exists i :: 0 <= i < |rows| - 1 && rows[i].group.id == g.id then front else front + [g]
  }

  lemma {:induction false} LinkedExactly(nodes: seq<Account>, rows: seq<JoinRow>, group: int, a: Account?)
    ensures a in Linked(nodes, rows, group) <==>
            exists i :: 0 <= i < |rows| && rows[i].group.id == group && Holder(nodes, rows[i].account) == a
  {
    hide Holder;
    if rows != [] {
      var front := rows[..|rows| - 1];
      LinkedExactly(nodes, front, group, a);
      assert forall i :: 0 <= i < |front| ==> front[i] == rows[i];
    }
  }

  lemma LinkedMeansJoined(nodes: seq<Account>, rows: seq<JoinRow>, group: int, a: Account)
    ensures a in Linked(nodes, rows, group) <==> Holder(nodes, a.id) == a && Joins(rows, a.id, group)
  {
    LinkedExactly(nodes, rows, group, a);
    hide Linked;
  }

  // What stops the loader at a group: no row had it, or one of its rows names an account that
  // was not asked for.
  function Trouble(nodes: seq<Account>, rows: seq<JoinRow>, n: Group): Outcome {
    if Linked(nodes, rows, n.id) == {} then Unexpected(n.id)
    else if null in Linked(nodes, rows, n.id) then NilAccount
    else Done
  }

  // The two kinds of trouble, told by the rows: no row had the group, or one of its rows names an
  // account that was not asked for.
  lemma TroubleExactly(nodes: seq<Account>, rows: seq<JoinRow>, n: Group)
    ensures Trouble(nodes, rows, n) ==
            if forall i :: 0 <= i < |rows| ==> rows[i].group.id != n.id then Unexpected(n.id)
            else if exists i :: 0 <= i < |rows| && rows[i].group.id == n.id && !Requested(nodes, rows[i].account)
            then NilAccount
            else Done
  {
    hide Requested, Holder, Linked;
    forall a: Account? ensures a in Linked(nodes, rows, n.id) <==>
            exists i :: 0 <= i < |rows| && rows[i].group.id == n.id && Holder(nodes, rows[i].account) == a {
      LinkedExactly(nodes, rows, n.id, a);
    }
    forall i | 0 <= i < |rows| ensures Holder(nodes, rows[i].account) == null <==> !Requested(nodes, rows[i].account) {
      HolderExists(nodes, rows[i].account);
    }
    var linked := Linked(nodes, rows, n.id);
    if linked == {} {
      assert forall i :: 0 <= i < |rows| && rows[i].group.id == n.id ==> Holder(nodes, rows[i].account) in linked;
    } else {
      var a :| a in linked;
      assert exists i :: 0 <= i < |rows| && rows[i].group.id == n.id && Holder(nodes, rows[i].account) == a;
    }
  }

  function FirstTrouble(nodes: seq<Account>, rows: seq<JoinRow>, ns: seq<Group>): (k: nat)
    ensures k <= |ns|
  {
    if ns == [] || Trouble(nodes, rows, ns[0]) != Done then 0
    else 1 + FirstTrouble(nodes, rows, ns[1..])
  }

  lemma {:induction false} FirstTroubleIs(nodes: seq<Account>, rows: seq<JoinRow>, ns: seq<Group>, k: nat)
    requires k <= |ns|
    ensures k == FirstTrouble(nodes, rows, ns) <==>
            && (k < |ns| ==> Trouble(nodes, rows, ns[k]) != Done)
            && forall j :: 0 <= j < k ==> Trouble(nodes, rows, ns[j]) == Done
  {
    hide Trouble;
    if ns != [] && Trouble(nodes, rows, ns[0]) == Done && k > 0 {
      FirstTroubleIs(nodes, rows, ns[1..], k - 1);
      assert forall j :: 0 < j <= k ==> j < |ns| ==> ns[j] == ns[1..][j - 1];
      assert forall j :: 0 <= j < k - 1 ==> ns[1..][j] == ns[j + 1];
    }
  }

  ghost predicate IndexesRows(nids: map<int, set<Account?>>, nodes: seq<Account>, rows: seq<JoinRow>) {
    forall g :: Linked(nodes, rows, g) == if g in nids then nids[g] else {}
  }

  method IndexRows(nodes: seq<Account>, byId: map<int, Account>, rows: seq<JoinRow>)
    returns (nids: map<int, set<Account?>>, found: seq<Group>)
    requires Indexes(byId, nodes)
    ensures IndexesRows(nids, nodes, rows) && (forall g :: g in nids ==> nids[g] != {})
    ensures found == Found(rows)
  {
    nids, found := map[], [];
    for i := 0 to |rows|
      invariant IndexesRows(nids, nodes, rows[..i]) && (forall g :: g in nids ==> nids[g] != {})
      invariant forall g :: g in nids <==> exists j :: 0 <= j < i && rows[j].group.id == g
      invariant found == Found(rows[..i])
    {
      var row := rows[i];
      var g := row.group.id;
      var account: Account? := if row.account in byId then byId[row.account] else null;
      assert account == Holder(nodes, row.account);
      assert rows[..i + 1][..i] == rows[..i];
      if g !in nids {
        nids := nids[g := {account}];
        found := found + [row.group];
      } else {
        nids := nids[g := nids[g] + {account}];
      }
    }
    assert rows[..|rows|] == rows;
  }

  method IndexNodes(nodes: seq<Account>) returns (byId: map<int, Account>)
    ensures Indexes(byId, nodes)
  {
    byId := map[];
    for i := 0 to |nodes|
      invariant Indexes(byId, nodes[..i])
    {
      assert nodes[..i + 1][..i] == nodes[..i];
      byId := byId[nodes[i].id := nodes[i]];
    }
    assert nodes[..|nodes|] == nodes;
  }

  // The loaders touch one edge each.
  twostate predicate OnlyGroups(nodes: seq<Account>)
    reads nodes
  {
    forall a <- nodes :: a.proxy == old(a.proxy) && a.usageLogs == old(a.usageLogs)
  }

  method ClearGroups(nodes: seq<Account>)
    modifies nodes
    ensures OnlyGroups(nodes)
    ensures forall a <- nodes :: a.groups == []
  {
    for i := 0 to |nodes|
      invariant forall j :: 0 <= j < i ==> nodes[j].groups == []
      invariant OnlyGroups(nodes)
    {
      nodes[i].groups := [];
    }
  }

  // Appends n to every account linked to it, in the map's order, which is arbitrary.
  method AssignGroup(nodes: seq<Account>, linked: set<Account?>, n: Group) returns (ok: bool)
    requires forall a <- linked :: a == null || a in nodes
    modifies nodes
    ensures OnlyGroups(nodes)
    ensures ok <==> null !in linked
    ensures ok ==> forall a <- nodes :: a.groups == old(a.groups) + if a in linked then [n] else []
  {
    var rest := linked;
    while rest != {}
      invariant rest <= linked && (null in linked ==> null in rest)
      invariant forall a <- nodes :: a.groups == old(a.groups) + if a in linked - rest then [n] else []
      invariant OnlyGroups(nodes)
    {
      var a: Account? :| a in rest;
      if a == null {
        return false;
      }
      a.groups := a.groups + [n];
      rest := rest - {a};
    }
    return true;
  }

  // intercept stands for the query's interceptors, which may change its result, or fail as the
  // query itself may.
  method LoadGroups(nodes: seq<Account>, rows: seq<JoinRow>, intercept: seq<Group> -> Option<seq<Group>>)
    returns (outcome: Outcome)
    modifies nodes
    ensures OnlyGroups(nodes)
    ensures intercept(Found(rows)) == None ==> outcome == QueryFailed && forall a <- nodes :: a.groups == []
    ensures intercept(Found(rows)).Some? ==>
      var ns := intercept(Found(rows)).value;
      var k := FirstTrouble(nodes, rows, ns);
      && outcome == (if k < |ns| then Trouble(nodes, rows, ns[k]) else Done)
      && (outcome == Done <==> k == |ns|)
      && (outcome != NilAccount ==> forall a <- nodes :: a.groups == Held(nodes, rows, a, ns[..k]))
  {
    hide Held, Linked, Found, Holder, FirstTrouble;
    ClearGroups(nodes);
    var byId := IndexNodes(nodes);
    var nids, found := IndexRows(nodes, byId, rows);
    var answer := intercept(found);
    if answer == None {
      return QueryFailed;
    }
    var ns := answer.value;
    HeldNothing(nodes, rows);
    for i := 0 to |ns|
      invariant forall j :: 0 <= j < i ==> Trouble(nodes, rows, ns[j]) == Done
      invariant forall a <- nodes :: a.groups == Held(nodes, rows, a, ns[..i])
      invariant OnlyGroups(nodes)
    {
      var n := ns[i];
      if n.id !in nids {
        FirstTroubleIs(nodes, rows, ns, i);
        return Unexpected(n.id);
      }
      LinkedAreNodes(nodes, rows, n.id);
      HeldGrows(nodes, rows, ns, i);
      var ok := AssignGroup(nodes, nids[n.id], n);
      if !ok {
        FirstTroubleIs(nodes, rows, ns, i);
        return NilAccount;
      }
    }
    FirstTroubleIs(nodes, rows, ns, |ns|);
    return Done;
  }

  lemma LinkedAreNodes(nodes: seq<Account>, rows: seq<JoinRow>, group: int)
    ensures forall a <- Linked(nodes, rows, group) :: a == null || a in nodes
  {
    forall a <- Linked(nodes, rows, group) ensures a == null || a in nodes {
      LinkedExactly(nodes, rows, group, a);
    }
  }

  lemma HeldNothing(nodes: seq<Account>, rows: seq<JoinRow>)
    ensures forall a: Account :: Held(nodes, rows, a, []) == []
  {
    hide Holder;
  }

  lemma HeldGrows(nodes: seq<Account>, rows: seq<JoinRow>, ns: seq<Group>, i: nat)
    requires i < |ns|
    ensures forall a: Account :: Held(nodes, rows, a, ns[..i + 1]) ==
              Held(nodes, rows, a, ns[..i]) + if a in Linked(nodes, rows, ns[i].id) then [ns[i]] else []
  {
    forall a: Account
      ensures Held(nodes, rows, a, ns[..i + 1]) ==
              Held(nodes, rows, a, ns[..i]) + if a in Linked(nodes, rows, ns[i].id) then [ns[i]] else []
    {
      LinkedMeansJoined(nodes, rows, ns[i].id, a);
      hide Linked, Holder, Joins;
      assert ns[..i + 1][..i] == ns[..i];
    }
  }

  // Rows that carry the same group id carry the same group.
  predicate Consistent(rows: seq<JoinRow>) {
    forall i, j :: 0 <= i < |rows| && 0 <= j < |rows| && rows[i].group.id == rows[j].group.id
        ==> rows[i].group == rows[j].group
  }

  predicate DistinctGroups(groups: seq<Group>) {
    forall i, j :: 0 <= i < j < |groups| ==> groups[i].id != groups[j].id
  }

  lemma {:induction false} FoundExactly(rows: seq<JoinRow>, g: Group)
    requires Consistent(rows)
    ensures g in Found(rows) <==> exists i :: 0 <= i < |rows| && rows[i].group == g
  {
    if rows != [] {
      var front, last := rows[..|rows| - 1], rows[|rows| - 1].group;
      assert forall i :: 0 <= i < |front| ==> front[i] == rows[i];
      FoundExactly(front, g);
    }
  }

  // The groups are in the order of the rows: more rows only add groups at the end.
  lemma {:induction false} FoundInOrder(a: seq<JoinRow>, b: seq<JoinRow>)
    ensures Found(a) <= Found(a + b)
  {
    if b == [] {
      assert a + b == a;
    } else {
      assert (a + b)[..|a + b| - 1] == a + b[..|b| - 1];
      FoundInOrder(a, b[..|b| - 1]);
    }
  }

  // An account's groups are in the order in which they were returned.
  lemma {:induction false} JoinedInOrder(rows: seq<JoinRow>, account: int, a: seq<Group>, b: seq<Group>)
    ensures Joined(rows, account, a + b) == Joined(rows, account, a) + Joined(rows, account, b)
  {
    hide Joins;
    if b == [] {
      assert a + b == a;
    } else {
      assert (a + b)[..|a + b| - 1] == a + b[..|b| - 1];
      JoinedInOrder(rows, account, a, b[..|b| - 1]);
    }
  }

  lemma {:induction false} FoundDistinct(rows: seq<JoinRow>)
    requires Consistent(rows)
    ensures DistinctGroups(Found(rows))
  {
    if rows != [] {
      var front := rows[..|rows| - 1];
      assert forall i :: 0 <= i < |front| ==> front[i] == rows[i];
      FoundDistinct(front);
      forall i | 0 <= i < |Found(front)|
        ensures exists j :: 0 <= j < |front| && rows[j].group == Found(front)[i]
      {
        FoundExactly(front, Found(front)[i]);
      }
    }
  }

  lemma {:induction false} JoinedExactly(rows: seq<JoinRow>, account: int, ns: seq<Group>, g: Group)
    ensures g in Joined(rows, account, ns) <==> g in ns && Joins(rows, account, g.id)
    ensures DistinctGroups(ns) ==> DistinctGroups(Joined(rows, account, ns))
  {
    hide Joins;
    if ns != [] {
      var front, n := ns[..|ns| - 1], ns[|ns| - 1];
      JoinedExactly(rows, account, front, g);
      assert ns == front + [n];
      if DistinctGroups(ns) {
        forall i | 0 <= i < |Joined(rows, account, front)|
          ensures Joined(rows, account, front)[i] in front
        {
          JoinedExactly(rows, account, front, Joined(rows, account, front)[i]);
        }
      }
    }
  }

  lemma {:induction false} NoTrouble(nodes: seq<Account>, rows: seq<JoinRow>)
    requires Consistent(rows) && forall i :: 0 <= i < |rows| ==> Requested(nodes, rows[i].account)
    ensures FirstTrouble(nodes, rows, Found(rows)) == |Found(rows)|
  {
    hide Requested, Holder, Linked, Found, FirstTrouble, Consistent;
    var ns := Found(rows);
    forall j | 0 <= j < |ns| ensures Trouble(nodes, rows, ns[j]) == Done {
      FoundExactly(rows, ns[j]);
      var i :| 0 <= i < |rows| && rows[i].group == ns[j];
      LinkedExactly(nodes, rows, ns[j].id, Holder(nodes, rows[i].account));
      LinkedExactly(nodes, rows, ns[j].id, null);
      forall i | 0 <= i < |rows| ensures Holder(nodes, rows[i].account) != null {
        HolderExists(nodes, rows[i].account);
      }
    }
    FirstTroubleIs(nodes, rows, ns, |ns|);
  }

  // For rows keyed inside the requested ids no error occurs, and every account ends up with
  // each group joined to it exactly once, however often the join row came, and no other.
  lemma EveryJoinedGroupOnce(nodes: seq<Account>, rows: seq<JoinRow>, k: nat, g: Group)
    requires DistinctIds(nodes) && k < |nodes|
    requires Consistent(rows) && forall i :: 0 <= i < |rows| ==> Requested(nodes, rows[i].account)
    ensures FirstTrouble(nodes, rows, Found(rows)) == |Found(rows)|
    ensures var held := Held(nodes, rows, nodes[k], Found(rows));
            DistinctGroups(held) && (g in held <==> JoinRow(nodes[k].id, g) in rows)
  {
    NoTrouble(nodes, rows);
    DistinctHolders(nodes, k);
    hide FirstTrouble, Found, Joined, Holder, DistinctIds, Requested;
    JoinedExactly(rows, nodes[k].id, Found(rows), g);
    FoundExactly(rows, g);
    FoundDistinct(rows);
  }

  /* ---------- proxy: many to one ---------- */

  // The foreign keys asked for, each once.
  function Keys(nodes: seq<Account>): (ids: seq<int>) {
    if nodes == [] then []
    else
      var front, fk := Keys(nodes[..|nodes| - 1]), nodes[|nodes| - 1].proxyId;
      if fk == None || fk.value in front then front else front + [fk.value]
  }

  lemma {:induction false} KeysExactly(nodes: seq<Account>, id: int)
    ensures id in Keys(nodes) <==> exists i :: 0 <= i < |nodes| && nodes[i].proxyId == Some(id)
    ensures forall i, j :: 0 <= i < j < |Keys(nodes)| ==> Keys(nodes)[i] != Keys(nodes)[j]
  {
    if nodes != [] {
      KeysExactly(nodes[..|nodes| - 1], id);
      assert forall i :: 0 <= i < |nodes| - 1 ==> nodes[..|nodes| - 1][i] == nodes[i];
    }
  }

  lemma {:induction false} NoKeys(nodes: seq<Account>)
    ensures (forall a <- nodes :: a.proxyId == None) ==> Keys(nodes) == []
  {
    if nodes != [] {
      NoKeys(nodes[..|nodes| - 1]);
      assert nodes[|nodes| - 1] in nodes;
    }
  }

  // The last returned proxy with that id.
  function Target(ns: seq<Proxy>, id: int): Option<Proxy> {
    if ns == [] then None
    else if ns[|ns| - 1].id == id then Some(ns[|ns| - 1])
    else Target(ns[..|ns| - 1], id)
  }

  function PointsTo(was: Option<Proxy>, fk: Option<int>, ns: seq<Proxy>): Option<Proxy> {
    if fk.Some? && Target(ns, fk.value).Some? then Target(ns, fk.value) else was
  }

  lemma {:induction false} TargetExactly(ns: seq<Proxy>, id: int, n: Proxy)
    requires forall i, j :: 0 <= i < j < |ns| ==> ns[i].id != ns[j].id
    ensures Target(ns, id) == Some(n) <==> n in ns && n.id == id
  {
    if ns != [] {
      var front := ns[..|ns| - 1];
      TargetExactly(front, id, n);
      assert ns == front + [ns[|ns| - 1]];
    }
  }

  // The first returned row whose key was not asked for; their number if there is none.
  function FirstStray(keys: seq<int>, asked: seq<int>): (k: nat)
    ensures k <= |keys|
  {
    if keys == [] || keys[0] !in asked then 0 else 1 + FirstStray(keys[1..], asked)
  }

  lemma {:induction false} FirstStrayIs(keys: seq<int>, asked: seq<int>, k: nat)
    requires k <= |keys|
    ensures k == FirstStray(keys, asked)
        <==> (k < |keys| ==> keys[k] !in asked) && forall j :: 0 <= j < k ==> keys[j] in asked
  {
    if keys != [] && keys[0] in asked && k > 0 {
      FirstStrayIs(keys[1..], asked, k - 1);
      assert forall j :: 0 < j <= k ==> j < |keys| ==> keys[j] == keys[1..][j - 1];
      assert forall j :: 0 <= j < k - 1 ==> keys[1..][j] == keys[j + 1];
    }
  }

  function ProxyIds(ns: seq<Proxy>): (ids: seq<int>)
    ensures |ids| == |ns| && forall i :: 0 <= i < |ns| ==> ids[i] == ns[i].id
  {
    seq(|ns|, i requires 0 <= i < |ns| => ns[i].id)
  }

  // The accounts of one foreign key, in order.
  function Pointing(nodes: seq<Account>, fk: int): (r: seq<Account>)
    ensures forall a <- r :: a in nodes
  {
    if nodes == [] then []
    else Pointing(nodes[..|nodes| - 1], fk)
         + if nodes[|nodes| - 1].proxyId == Some(fk) then [nodes[|nodes| - 1]] else []
  }

  lemma {:induction false} PointingExactly(nodes: seq<Account>, fk: int, a: Account)
    ensures a in Pointing(nodes, fk) <==> a in nodes && a.proxyId == Some(fk)
  {
    if nodes != [] {
      PointingExactly(nodes[..|nodes| - 1], fk, a);
      assert nodes == nodes[..|nodes| - 1] + [nodes[|nodes| - 1]];
    }
  }

  twostate predicate OnlyProxy(nodes: seq<Account>)
    reads nodes
  {
    forall a <- nodes :: a.groups == old(a.groups) && a.usageLogs == old(a.usageLogs)
  }

  method IndexKeys(nodes: seq<Account>) returns (ids: seq<int>, byKey: map<int, seq<Account>>)
    ensures ids == Keys(nodes)
    ensures forall fk :: if fk in byKey then fk in ids && byKey[fk] == Pointing(nodes, fk) else fk !in ids
  {
    ids, byKey := [], map[];
    for i := 0 to |nodes|
      invariant ids == Keys(nodes[..i])
      invariant forall fk :: if fk in byKey then fk in ids && byKey[fk] == Pointing(nodes[..i], fk)
                             else fk !in ids && Pointing(nodes[..i], fk) == []
    {
      assert nodes[..i + 1][..i] == nodes[..i];
      if nodes[i].proxyId != None {
        var fk := nodes[i].proxyId.value;
        if fk !in byKey {
          ids := ids + [fk];
          byKey := byKey[fk := [nodes[i]]];
        } else {
          byKey := byKey[fk := byKey[fk] + [nodes[i]]];
        }
      }
    }
    assert nodes[..|nodes|] == nodes;
  }

  method AssignProxy(nodes: seq<Account>, pointing: seq<Account>, n: Proxy)
    requires forall a <- pointing :: a in nodes
    modifies nodes
    ensures OnlyProxy(nodes)
    ensures forall a <- nodes :: a.proxy == if a in pointing then Some(n) else old(a.proxy)
  {
    for i := 0 to |pointing|
      invariant OnlyProxy(nodes)
      invariant forall a <- nodes :: a.proxy == if a in pointing[..i] then Some(n) else old(a.proxy)
    {
      assert pointing[..i + 1] == pointing[..i] + [pointing[i]];
      assert pointing[i] in pointing;
      pointing[i].proxy := Some(n);
    }
    assert pointing[..|pointing|] == pointing;
  }

  // The query answers for the ids it is given, or fails; without a foreign key it is not made.
  function ProxiesAsked(nodes: seq<Account>, query: seq<int> -> Option<seq<Proxy>>): Option<seq<Proxy>> {
    if Keys(nodes) == [] then Some([]) else query(Keys(nodes))
  }

  method LoadProxy(nodes: seq<Account>, query: seq<int> -> Option<seq<Proxy>>) returns (outcome: Outcome)
    modifies nodes
    ensures OnlyProxy(nodes)
    ensures (forall a <- nodes :: a.proxyId == None) ==> outcome == Done && forall a <- nodes :: a.proxy == old(a.proxy)
    ensures ProxiesAsked(nodes, query) == None
        ==> outcome == QueryFailed && forall a <- nodes :: a.proxy == old(a.proxy)
    ensures ProxiesAsked(nodes, query).Some? ==>
      var ns := ProxiesAsked(nodes, query).value;
      var k := FirstStray(ProxyIds(ns), Keys(nodes));
      && outcome == (if k < |ns| then Unexpected(ns[k].id) else Done)
      && forall a <- nodes :: a.proxy == PointsTo(old(a.proxy), a.proxyId, ns[..k])
  {
    hide Keys, Pointing, FirstStray;
    var ids, byKey := IndexKeys(nodes);
    NoKeys(nodes);
    if ids == [] {
      FirstStrayIs([], ids, 0);
      return Done;
    }
    var answer := query(ids);
    if answer == None {
      return QueryFailed;
    }
    var ns := answer.value;
    for i := 0 to |ns|
      invariant OnlyProxy(nodes)
      invariant forall j :: 0 <= j < i ==> ns[j].id in ids
      invariant forall a <- nodes :: a.proxy == PointsTo(old(a.proxy), a.proxyId, ns[..i])
    {
      var n := ns[i];
      if n.id !in byKey {
        FirstStrayIs(ProxyIds(ns), ids, i);
        return Unexpected(n.id);
      }
      forall a <- nodes ensures a in byKey[n.id] <==> a.proxyId == Some(n.id) {
        PointingExactly(nodes, n.id, a);
      }
      assert ns[..i + 1][..i] == ns[..i];
      AssignProxy(nodes, byKey[n.id], n);
    }
    FirstStrayIs(ProxyIds(ns), ids, |ns|);
    assert ns[..|ns|] == ns;
    return Done;
  }

  // For an answer of distinct proxies keyed inside the requested ids no error occurs; an account
  // with a foreign key gets the proxy with that id and no other, and stays without one when none
  // was returned.
  lemma EveryProxyFound(nodes: seq<Account>, ns: seq<Proxy>, k: nat, n: Proxy)
    requires k < |nodes| && forall i :: 0 <= i < |ns| ==> ns[i].id in Keys(nodes)
    requires forall i, j :: 0 <= i < j < |ns| ==> ns[i].id != ns[j].id
    ensures FirstStray(ProxyIds(ns), Keys(nodes)) == |ns|
    ensures PointsTo(None, nodes[k].proxyId, ns) == Some(n) <==> n in ns && nodes[k].proxyId == Some(n.id)
  {
    FirstStrayIs(ProxyIds(ns), Keys(nodes), |ns|);
    hide Keys, FirstStray, Target;
    if nodes[k].proxyId.Some? {
      TargetExactly(ns, nodes[k].proxyId.value, n);
    }
  }

  /* ---------- usage logs: one to many ---------- */

  function Ids(nodes: seq<Account>): (ids: seq<int>)
    ensures |ids| == |nodes| && forall i :: 0 <= i < |nodes| ==> ids[i] == nodes[i].id
  {
    seq(|nodes|, i requires 0 <= i < |nodes| => nodes[i].id)
  }

  function Owners(ns: seq<UsageLog>): (ids: seq<int>)
    ensures |ids| == |ns| && forall i :: 0 <= i < |ns| ==> ids[i] == ns[i].accountId
  {
    seq(|ns|, i requires 0 <= i < |ns| => ns[i].accountId)
  }

  // The nested-loop join: the returned children of one account, in order.
  function Children(ns: seq<UsageLog>, account: int): seq<UsageLog> {
    if ns == [] then []
    else Children(ns[..|ns| - 1], account) + if ns[|ns| - 1].accountId == account then [ns[|ns| - 1]] else []
  }

  function Adopted(nodes: seq<Account>, a: Account, ns: seq<UsageLog>): seq<UsageLog> {
    if Holder(nodes, a.id) == a then Children(ns, a.id) else []
  }

  twostate predicate OnlyUsageLogs(nodes: seq<Account>)
    reads nodes
  {
    forall a <- nodes :: a.groups == old(a.groups) && a.proxy == old(a.proxy)
  }

  lemma NothingAdopted(nodes: seq<Account>)
    ensures forall a: Account :: Adopted(nodes, a, []) == []
  {
    hide Holder;
  }

  lemma AdoptedGrows(nodes: seq<Account>, ns: seq<UsageLog>, i: nat)
    requires i < |ns|
    ensures forall a: Account :: Adopted(nodes, a, ns[..i + 1]) ==
              Adopted(nodes, a, ns[..i]) + if a == Holder(nodes, ns[i].accountId) then [ns[i]] else []
  {
    hide Holder;
    assert ns[..i + 1][..i] == ns[..i];
  }

  method ClearUsageLogs(nodes: seq<Account>) returns (fks: seq<int>)
    modifies nodes
    ensures fks == Ids(nodes) && OnlyUsageLogs(nodes)
    ensures forall a <- nodes :: a.usageLogs == []
  {
    fks := [];
    for i := 0 to |nodes|
      invariant fks == Ids(nodes)[..i]
      invariant OnlyUsageLogs(nodes)
      invariant forall j :: 0 <= j < i ==> nodes[j].usageLogs == []
    {
      fks := fks + [nodes[i].id];
      nodes[i].usageLogs := [];
    }
  }

  method AssignUsageLog(nodes: seq<Account>, parent: Account, n: UsageLog)
    requires parent in nodes
    modifies nodes
    ensures OnlyUsageLogs(nodes)
    ensures forall a <- nodes :: a.usageLogs == old(a.usageLogs) + if a == parent then [n] else []
  {
    parent.usageLogs := parent.usageLogs + [n];
  }

  method LoadUsageLogs(nodes: seq<Account>, query: seq<int> -> Option<seq<UsageLog>>) returns (outcome: Outcome)
    modifies nodes
    ensures OnlyUsageLogs(nodes)
    ensures query(Ids(nodes)) == None ==> outcome == QueryFailed && forall a <- nodes :: a.usageLogs == []
    ensures query(Ids(nodes)).Some? ==>
      var ns := query(Ids(nodes)).value;
      var k := FirstStray(Owners(ns), Ids(nodes));
      && outcome == (if k < |ns| then Unexpected(ns[k].accountId) else Done)
      && forall a <- nodes :: a.usageLogs == Adopted(nodes, a, ns[..k])
  {
    hide Holder, FirstStray, Children, Adopted;
    var fks := ClearUsageLogs(nodes);
    var byId := IndexNodes(nodes);
    var answer := query(fks);
    if answer == None {
      return QueryFailed;
    }
    var ns := answer.value;
    NothingAdopted(nodes);
    assert ns[..0] == [];
    for i := 0 to |ns|
      invariant OnlyUsageLogs(nodes)
      invariant forall j :: 0 <= j < i ==> ns[j].accountId in fks
      invariant forall a <- nodes :: a.usageLogs == Adopted(nodes, a, ns[..i])
    {
      var n := ns[i];
      HolderExists(nodes, n.accountId);
      if n.accountId !in byId {
        FirstStrayIs(Owners(ns), fks, i);
        return Unexpected(n.accountId);
      }
      var a := byId[n.accountId];
      AdoptedGrows(nodes, ns, i);
      AssignUsageLog(nodes, a, n);
    }
    FirstStrayIs(Owners(ns), fks, |ns|);
    assert ns[..|ns|] == ns;
    return Done;
  }

  // For children keyed inside the requested ids no error occurs, and each child lands on exactly
  // its parent: an account gets its own children, in the order returned.
  lemma EveryChildLands(nodes: seq<Account>, ns: seq<UsageLog>, k: nat)
    requires DistinctIds(nodes) && k < |nodes| && forall i :: 0 <= i < |ns| ==> ns[i].accountId in Ids(nodes)
    ensures FirstStray(Owners(ns), Ids(nodes)) == |ns|
    ensures Adopted(nodes, nodes[k], ns) == Children(ns, nodes[k].id)
    ensures forall n :: n in Children(ns, nodes[k].id) <==> n in ns && n.accountId == nodes[k].id
  {
    hide FirstStray, Holder, Children;
    FirstStrayIs(Owners(ns), Ids(nodes), |ns|);
    DistinctHolders(nodes, k);
    forall n ensures n in Children(ns, nodes[k].id) <==> n in ns && n.accountId == nodes[k].id {
      ChildrenExactly(ns, nodes[k].id, n);
    }
  }

  // In the order in which they were returned.
  lemma {:induction false} ChildrenInOrder(a: seq<UsageLog>, b: seq<UsageLog>, account: int)
    ensures Children(a + b, account) == Children(a, account) + Children(b, account)
  {
    if b == [] {
      assert a + b == a;
    } else {
      assert (a + b)[..|a + b| - 1] == a + b[..|b| - 1];
      ChildrenInOrder(a, b[..|b| - 1], account);
    }
  }

  lemma {:induction false} ChildrenExactly(ns: seq<UsageLog>, account: int, n: UsageLog)
    ensures n in Children(ns, account) <==> n in ns && n.accountId == account
    ensures multiset(Children(ns, account))[n] == if n.accountId == account then multiset(ns)[n] else 0
  {
    if ns != [] {
      ChildrenExactly(ns[..|ns| - 1], account, n);
      assert ns == ns[..|ns| - 1] + [ns[|ns| - 1]];
    }
  }

  /* ---------- the whole query ---------- */

  lemma NoneLeft<T>(answer: Option<seq<T>>)
    ensures answer.Some? ==> answer.value[..|answer.value|] == answer.value
  {
  }

  datatype With = With(groups: bool, proxy: bool, usageLogs: bool)

  // What the queries answer; None where one fails.
  datatype Answers = Answers(rows: seq<JoinRow>, intercept: seq<Group> -> Option<seq<Group>>,
                             proxies: seq<int> -> Option<seq<Proxy>>, logs: seq<int> -> Option<seq<UsageLog>>)

  // Each loader's outcome, and the outcome of the loaders in turn: that of the first to fail.
  function GroupsOutcome(nodes: seq<Account>, answers: Answers): Outcome {
    match answers.intercept(Found(answers.rows))
    case None => QueryFailed
    case Some(ns) =>
      var k := FirstTrouble(nodes, answers.rows, ns);
      if k < |ns| then Trouble(nodes, answers.rows, ns[k]) else Done
  }

  function ProxyOutcome(nodes: seq<Account>, answers: Answers): Outcome {
    match ProxiesAsked(nodes, answers.proxies)
    case None => QueryFailed
    case Some(ns) =>
      var k := FirstStray(ProxyIds(ns), Keys(nodes));
      if k < |ns| then Unexpected(ns[k].id) else Done
  }

  function UsageLogsOutcome(nodes: seq<Account>, answers: Answers): Outcome {
    match answers.logs(Ids(nodes))
    case None => QueryFailed
    case Some(ns) =>
      var k := FirstStray(Owners(ns), Ids(nodes));
      if k < |ns| then Unexpected(ns[k].accountId) else Done
  }

  function EdgesOutcome(nodes: seq<Account>, with: With, answers: Answers): Outcome {
    if nodes == [] then Done
    else if with.groups && GroupsOutcome(nodes, answers) != Done then GroupsOutcome(nodes, answers)
    else if with.proxy && ProxyOutcome(nodes, answers) != Done then ProxyOutcome(nodes, answers)
    else if with.usageLogs then UsageLogsOutcome(nodes, answers)
    else Done
  }

  function OrNone<T>(answer: Option<seq<T>>): seq<T> {
    if answer.Some? then answer.value else []
  }

  // The edges of accounts just read, loaded one after the other until one fails. Every loader
  // leaves the others' edges alone, so a result without an error has all of them right.
  method LoadEdges(nodes: seq<Account>, with: With, answers: Answers) returns (outcome: Outcome)
    requires forall a <- nodes :: a.groups == [] && a.proxy == None && a.usageLogs == []
    modifies nodes
    ensures outcome == EdgesOutcome(nodes, with, answers)
    ensures nodes == [] ==> outcome == Done
    ensures outcome == Done ==> forall a <- nodes ::
      && a.groups == (if with.groups then Held(nodes, answers.rows, a, OrNone(answers.intercept(Found(answers.rows))))
          else [])
      && a.proxy == (if with.proxy then PointsTo(None, a.proxyId, OrNone(ProxiesAsked(nodes, answers.proxies)))
          else None)
      && a.usageLogs == (if with.usageLogs then Adopted(nodes, a, OrNone(answers.logs(Ids(nodes)))) else [])
  {
    hide Held, Found, Keys, Target, Adopted, Ids, FirstStray, FirstTrouble, ProxiesAsked;
    NoneLeft(answers.intercept(Found(answers.rows)));
    NoneLeft(ProxiesAsked(nodes, answers.proxies));
    NoneLeft(answers.logs(Ids(nodes)));
    outcome := Done;
    if nodes == [] {
      return;
    }
    if with.groups {
      outcome := LoadGroups(nodes, answers.rows, answers.intercept);
      if outcome != Done { return; }
    }
    if with.proxy {
      outcome := LoadProxy(nodes, answers.proxies);
      if outcome != Done { return; }
    }
    if with.usageLogs {
      outcome := LoadUsageLogs(nodes, answers.logs);
    }
  }
}
