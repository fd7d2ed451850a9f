/** What routing assumes of the directory, of the peer tables and of each node's clients and groups is
    what login, discovery and the group protocol leave. */
module Composition {
  import opened Types
  import opened NodeSpec
  import opened Cluster
  import Login
  import Discovery
  import GroupProtocol
  import GroupMembership
  import GroupTheorems

  // ---- one node ----------------------------------------------------------------------------

  /** A run of the group protocol with the calls on each client serialised, and no join or leave in
      flight at its end. */
  ghost predicate IdleRun(tr: seq<GroupProtocol.State>) {
    && GroupProtocol.IsRun(tr) && (forall k :: 0 <= k < |tr| ==> GroupMembership.Serial(tr[k]))
    && var s := tr[|tr| - 1]; forall t :: t in s.threads ==> s.threads[t].Post?
  }

  /** The node has the groups of the protocol and what its clients note; only connected users are in
      groups. */
  ghost predicate Shows(s: GroupProtocol.State, n: NodeVal) {
    && n.table == GroupMembership.TableOf(s)
    && (forall u :: u in n.clients ==> n.clients[u].groups == GroupProtocol.JoinedBy(s, u))
    && (forall u :: GroupProtocol.JoinedBy(s, u) != {} ==> u in n.clients)
  }

  lemma NotedIffMember(tr: seq<GroupProtocol.State>, u: Uid, k: Gid)
    requires IdleRun(tr)
    ensures var s := tr[|tr| - 1];
      k in GroupProtocol.JoinedBy(s, u) <==> u in MembersOf(GroupMembership.TableOf(s), k)
  {
    GroupTheorems.MembershipAgrees(tr, |tr| - 1, u, k);
  }

  /** Between calls a node's clients and groups agree, and its group table has no empty group. */
  lemma IdleNodeIsCoherent(tr: seq<GroupProtocol.State>, n: NodeVal)
    requires IdleRun(tr) && Shows(tr[|tr| - 1], n)
    ensures Coherent(n) && tr[|tr| - 1].mapped.Keys == n.table.Keys
  {
    var s := tr[|tr| - 1];
    GroupTheorems.NoGroupLeaks(tr, |tr| - 1);
    forall u, k ensures k in GroupProtocol.JoinedBy(s, u) <==> u in MembersOf(n.table, k) { NotedIffMember(tr, u, k); }
    forall k | k in n.table ensures n.table[k] != {} && n.table[k] <= n.clients.Keys {
      forall u | u in n.table[k] ensures u in n.clients {
        assert u in MembersOf(n.table, k);
        assert k in GroupProtocol.JoinedBy(s, u);
      }
    }
  }

  // ---- the cluster -------------------------------------------------------------------------

  /** The nodes of the login model, by number. */
  type Ids = map<nat, NodeId>

  /** Node n, under one of its numbers, has a client registered for the user. */
  ghost predicate RegisteredAt(w: Login.World, ids: Ids, n: NodeId, u: Uid) {
    exists k :: k in ids && ids[k] == n && k in Login.Of(w, u).reg
  }

  /** The cluster has the clients and the directory of the login model. */
  ghost predicate Represents(w: Login.World, ids: Ids, c: ClusterState) {
    && (forall n, u :: Hosts(c, n, u) <==> RegisteredAt(w, ids, n, u))
    && (forall u :: u in c.directory <==> Login.Of(w, u).dir.Some?)
    && (forall u :: u in c.directory ==>
          Login.Of(w, u).dir.value.node in ids && c.directory[u] == EntryFor(ids[Login.Of(w, u).dir.value.node], u))
  }

  ghost predicate AllQuiet(w: Login.World) {
    forall u :: Login.Quiet(Login.Of(w, u))
  }

  lemma LoginKeepsOneHost(ws: seq<Login.World>, i: nat, ids: Ids, c: ClusterState)
    requires Login.IsWorldRun(ws) && i < |ws| && Represents(ws[i], ids, c)
    ensures HostedOnce(c)
  {
    forall a, b, u | a in c.nodes && b in c.nodes && u in c.nodes[a].clients && u in c.nodes[b].clients
      ensures a == b
    {
      assert Hosts(c, a, u) && Hosts(c, b, u);
      Login.UniqueLogin(ws, i, u);
    }
  }

  /** After any orderly run of logins and closes of any users, with nothing under way: the directory
      names the hosting node of every connected user. */
  lemma LoginKeepsDirectoryRight(ws: seq<Login.World>, i: nat, ids: Ids, c: ClusterState)
    requires Login.IsWorldRun(ws) && i < |ws| && AllQuiet(ws[i]) && Represents(ws[i], ids, c)
    requires forall n :: n in c.nodes ==> n.ip != "" && n.rpcPort != ""
    ensures DirectoryRight(c)
  {
    forall n, u | Hosts(c, n, u)
      ensures u in c.directory && c.directory[u] == EntryFor(n, u) && n.ip != "" && n.rpcPort != "" {
      assert RegisteredAt(ws[i], ids, n, u);
      var k :| k in ids && ids[k] == n && k in Login.Of(ws[i], u).reg;
      Login.UniqueLogin(ws, i, u);
      assert Login.Quiet(Login.Of(ws[i], u));
    }
  }

  /** So, with every node idle and registered for discovery, and every watch caught up, the cluster is
      one in which routing is right. */
  lemma DeploymentIsSettled(
    ws: seq<Login.World>, i: nat, ids: Ids, c: ClusterState, cap: nat, store: Discovery.Store,
    runs: map<NodeId, seq<GroupProtocol.State>>)
    requires Login.IsWorldRun(ws) && i < |ws| && AllQuiet(ws[i]) && Represents(ws[i], ids, c)
    requires forall n :: n in c.nodes ==> n.ip != "" && n.rpcPort != "" && c.nodes[n].cap == cap
    requires forall n :: n in c.nodes ==> n in runs && IdleRun(runs[n]) && Shows(runs[n][|runs[n]| - 1], c.nodes[n])
    requires forall n :: n in c.nodes ==> c.service + AddrOf(n) in store && store[c.service + AddrOf(n)] == AddrOf(n)
    requires forall from :: from in c.nodes ==> from in c.peers && c.peers[from] == Discovery.Part(store, c.service)
    requires forall a, b :: a in c.nodes && b in c.nodes && AddrOf(a) == AddrOf(b) ==> a == b
    requires forall a, b :: a in c.nodes && b in c.nodes && a.ip == b.ip && a.wsPort == b.wsPort ==> a == b
    ensures Settled(c, cap)
  {
    forall n | n in c.nodes ensures Coherent(c.nodes[n]) { IdleNodeIsCoherent(runs[n], c.nodes[n]); }
    LoginKeepsOneHost(ws, i, ids, c);
    LoginKeepsDirectoryRight(ws, i, ids, c);
    Discovery.PeersAreRight(c, store);
  }
}
