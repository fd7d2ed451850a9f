/** A cluster of nodes with a shared directory of who is connected where and a discovered table of
    peers on each node. The claim throughout: it behaves like one big node. */
module Cluster {
  import opened Types
  import opened NodeSpec
  import opened Effects

  /** A node, by its addresses. */
  datatype NodeId = NodeId(ip: string, wsPort: string, rpcPort: string)

  /** What the directory stores for a connected user (the parts routing uses). */
  datatype UserOnline = UserOnline(accIp: string, accPort: string, rpcPort: string, userId: Uid)

  datatype ClusterState = ClusterState(
    service: string,                                   // service name: the prefix of peer keys
    nodes: map<NodeId, NodeVal>,
    directory: map<Uid, UserOnline>,
    peers: map<NodeId, map<string, string>>)           // per node: peer key to peer address

  function RpcAddr(ip: string, port: string): string {
    ip + ":" + port
  }

  function AddrOf(n: NodeId): string {
    RpcAddr(n.ip, n.rpcPort)
  }

  // ---- one big node ------------------------------------------------------------------------

  /** No user is connected to two nodes. */
  ghost predicate HostedOnce(c: ClusterState) {
    forall a, b, u :: a in c.nodes && b in c.nodes && u in c.nodes[a].clients && u in c.nodes[b].clients ==> a == b
  }

  ghost predicate WellFormed(c: ClusterState, cap: nat) {
    && HostedOnce(c)
    && forall n :: n in c.nodes ==> Coherent(c.nodes[n]) && c.nodes[n].cap == cap
  }

  ghost predicate Hosts(c: ClusterState, n: NodeId, uid: Uid) {
    n in c.nodes && uid in c.nodes[n].clients
  }

  ghost function Users(c: ClusterState): set<Uid> {
    set n, u | n in c.nodes && u in c.nodes[n].clients :: u
  }

  ghost function HostOf(c: ClusterState, uid: Uid): NodeId
    requires uid in Users(c)
  {
    var n :| n in c.nodes && uid in c.nodes[n].clients; n
  }

  ghost function AllMembers(c: ClusterState, gid: Gid): set<Uid> {
    set n, u | n in c.nodes && u in MembersOf(c.nodes[n].table, gid) :: u
  }

  ghost function Gids(c: ClusterState): set<Gid> {
    set n, k | n in c.nodes && k in c.nodes[n].table :: k
  }

  /** The single node whose clients and members are those of all nodes together. */
  ghost function Merge(c: ClusterState, cap: nat): NodeVal {
    NodeVal(cap, map u | u in Users(c) :: c.nodes[HostOf(c, u)].clients[u], map k | k in Gids(c) :: AllMembers(c, k))
  }

  lemma MergedClient(c: ClusterState, cap: nat, n: NodeId, uid: Uid)
    requires HostedOnce(c) && Hosts(c, n, uid)
    ensures uid in Merge(c, cap).clients && HostOf(c, uid) == n && Merge(c, cap).clients[uid] == c.nodes[n].clients[uid]
  {
  }

  lemma MergedMembers(c: ClusterState, cap: nat, gid: Gid)
    ensures MembersOf(Merge(c, cap).table, gid) == AllMembers(c, gid)
  {
  }

  /** A member of a group anywhere is a member on the node that hosts it. */
  lemma MembersAreHosted(c: ClusterState, cap: nat, u: Uid, k: Gid)
    requires WellFormed(c, cap)
    ensures u in AllMembers(c, k) ==> u in Users(c)
    ensures u in Users(c) ==> (u in AllMembers(c, k) <==> u in MembersOf(c.nodes[HostOf(c, u)].table, k))
  {
  }

  lemma MergeIsCoherent(c: ClusterState, cap: nat)
    requires WellFormed(c, cap)
    ensures Coherent(Merge(c, cap))
  {
    var m := Merge(c, cap);
    forall k | k in m.table ensures m.table[k] != {} && m.table[k] <= m.clients.Keys {
      var n :| n in c.nodes && k in c.nodes[n].table;
      assert Coherent(c.nodes[n]);
      var u :| u in c.nodes[n].table[k];
      assert u in MembersOf(c.nodes[n].table, k);
      assert u in AllMembers(c, k);
      forall v | v in AllMembers(c, k) ensures v in Users(c) { MembersAreHosted(c, cap, v, k); }
    }
    forall u, k | u in m.clients ensures k in m.clients[u].groups <==> u in MembersOf(m.table, k) {
      MembersAreHosted(c, cap, u, k);
      MergedMembers(c, cap, k);
      assert Coherent(c.nodes[HostOf(c, u)]);
    }
  }

  // ---- operations on one user --------------------------------------------------------------

  datatype Op =
    | SendMsg(uid: Uid, msg: Bytes)
    | SendMsgByTgid(uid: Uid, gid: Gid, msg: Bytes)
    | JoinGroup(uid: Uid, gid: Gid)
    | OutGroup(uid: Uid, gid: Gid)
    | StopUser(uid: Uid)

  /** The operations that are routed by looking the user up; a stop goes by a directory entry instead. */
  type RoutedOp = op: Op | !op.StopUser? witness SendMsg("", [])

  /** LocalProxy. */
  function LocalOp(n: NodeVal, op: Op): NodeVal {
    match op
    case SendMsg(uid, m) => SendToUser(n, uid, m)
    case SendMsgByTgid(uid, gid, m) => SendToUserByTgid(n, uid, gid, m)
    case JoinGroup(uid, gid) => Join(n, uid, gid)
    case OutGroup(uid, gid) => Out(n, uid, gid)
    case StopUser(uid) => Stop(n, uid)
  }

  predicate LocalOk(n: NodeVal, op: Op) {
    match op
    case SendMsg(uid, _) => SendToUserOk(n, uid)
    case SendMsgByTgid(uid, gid, _) => SendToUserByTgidOk(n, uid, gid)
    case _ => op.uid in n.clients
  }

  /** What each operation does to the user it names, and when it reports success. */
  lemma OpMeans(n: NodeVal, op: Op)
    requires op.uid in n.clients
    ensures var n' := LocalOp(n, op);
      var c, c' := n.clients[op.uid], n'.clients[op.uid];
      && OnlyClient(n, n', op.uid)
      && (!op.JoinGroup? && !op.OutGroup? ==> n'.table == n.table)
      && match op
         case SendMsg(_, m) => Received(c, c', n.cap, [m]) && (LocalOk(n, op) <==> c'.queue == c.queue + [m])
         case SendMsgByTgid(_, gid, m) =>
           && Received(c, c', n.cap, if gid in c.groups then [m] else [])
           && (LocalOk(n, op) <==> (gid in c.groups ==> c'.queue == c.queue + [m]))
         case JoinGroup(_, gid) =>
           OnlyGroups(c, c') && c'.groups == c.groups + {gid} && op.uid in MembersOf(n'.table, gid) && LocalOk(n, op)
         case OutGroup(_, gid) =>
           OnlyGroups(c, c') && c'.groups == c.groups - {gid} && op.uid !in MembersOf(n'.table, gid) && LocalOk(n, op)
         case StopUser(_) => !c'.online && c'.queue == c.queue && c'.groups == c.groups && LocalOk(n, op)
  {
    match op
    case SendMsg(uid, m) => SendMeans(n, uid, m);
    case SendMsgByTgid(uid, gid, m) => SendByTgidMeans(n, uid, gid, m);
    case JoinGroup(uid, gid) => JoinMeans(n, uid, gid);
    case OutGroup(uid, gid) => OutMeans(n, uid, gid);
    case StopUser(uid) => StopMeans(n, uid);
  }

  function SetNode(c: ClusterState, n: NodeId, v: NodeVal): ClusterState {
    c.(nodes := c.nodes[n := v])
  }

  /** What the operation does to the client it is about. */
  function OpOnClient(v: ClientVal, cap: nat, op: Op): ClientVal {
    match op
    case SendMsg(_, m) => Offer(v, cap, m)
    case SendMsgByTgid(_, gid, m) => if gid in v.groups then Offer(v, cap, m) else v
    case JoinGroup(_, gid) => v.(groups := v.groups + {gid})
    case OutGroup(_, gid) => v.(groups := v.groups - {gid})
    case StopUser(_) => v.(online := false)
  }

  lemma OpTouchesOneClient(n: NodeVal, op: Op)
    requires op.uid in n.clients
    ensures LocalOp(n, op).clients == n.clients[op.uid := OpOnClient(n.clients[op.uid], n.cap, op)]
    ensures LocalOp(n, op).cap == n.cap
  {
  }

  lemma SameHosts(c: ClusterState, c': ClusterState)
    requires HostedOnce(c) && c'.nodes.Keys == c.nodes.Keys
    requires forall a :: a in c.nodes ==> c'.nodes[a].clients.Keys == c.nodes[a].clients.Keys
    ensures HostedOnce(c') && Users(c') == Users(c)
    ensures forall u :: u in Users(c) ==> HostOf(c', u) == HostOf(c, u)
  {
  }

  lemma ClientsMerge(c: ClusterState, c': ClusterState, cap: nat, n: NodeId, uid: Uid, v: ClientVal)
    requires HostedOnce(c) && Hosts(c, n, uid) && c'.nodes.Keys == c.nodes.Keys
    requires forall a :: a in c.nodes && a != n ==> c'.nodes[a].clients == c.nodes[a].clients
    requires c'.nodes[n].clients == c.nodes[n].clients[uid := v]
    ensures Merge(c', cap).clients == Merge(c, cap).clients[uid := v]
  {
    SameHosts(c, c');
    MergedClient(c, cap, n, uid);
    ClientsMergeAt(c, c', cap, n, uid, v);
  }

  lemma ClientsMergeAt(c: ClusterState, c': ClusterState, cap: nat, n: NodeId, uid: Uid, v: ClientVal)
    requires n in c.nodes && c'.nodes.Keys == c.nodes.Keys && Users(c') == Users(c) && uid in Users(c) &&
      HostOf(c, uid) == n
    requires forall u :: u in Users(c) ==> HostOf(c', u) == HostOf(c, u)
    requires forall a :: a in c.nodes && a != n ==> c'.nodes[a].clients == c.nodes[a].clients
    requires c'.nodes[n].clients == c.nodes[n].clients[uid := v]
    ensures Merge(c', cap).clients == Merge(c, cap).clients[uid := v]
  {
    forall u | u in Users(c) ensures Merge(c', cap).clients[u] == if u == uid then v else Merge(c, cap).clients[u] {}
  }

  /** An operation on one user is visible on the big node exactly as the same local operation. */
  lemma MergeOp(c: ClusterState, cap: nat, n: NodeId, op: Op)
    requires WellFormed(c, cap) && Hosts(c, n, op.uid)
    ensures Merge(SetNode(c, n, LocalOp(c.nodes[n], op)), cap) == LocalOp(Merge(c, cap), op)
    ensures LocalOk(Merge(c, cap), op) == LocalOk(c.nodes[n], op)
  {
    var m := Merge(c, cap);
    MergedClient(c, cap, n, op.uid);
    OpTouchesOneClient(c.nodes[n], op);
    OpTouchesOneClient(m, op);
    ClientsMerge(c, SetNode(c, n, LocalOp(c.nodes[n], op)), cap, n, op.uid,
      OpOnClient(c.nodes[n].clients[op.uid], cap, op));
    MergeOpTable(c, cap, n, op);
  }

  lemma MergeOpTable(c: ClusterState, cap: nat, n: NodeId, op: Op)
    requires WellFormed(c, cap) && Hosts(c, n, op.uid)
    ensures Merge(SetNode(c, n, LocalOp(c.nodes[n], op)), cap).table == LocalOp(Merge(c, cap), op).table
  {
    var c' := SetNode(c, n, LocalOp(c.nodes[n], op));
    if op.JoinGroup? {
      MergedClient(c, cap, n, op.uid);
      MergeJoin(c, cap, n, op.uid, op.gid);
    } else if op.OutGroup? {
      MergedClient(c, cap, n, op.uid);
      MergeOut(c, cap, n, op.uid, op.gid);
    } else {
      OpKeepsTable(c.nodes[n], op);
      OpKeepsTable(Merge(c, cap), op);
      TablesStay(c, c', cap);
    }
  }

  lemma OpKeepsTable(n: NodeVal, op: Op)
    requires !op.JoinGroup? && !op.OutGroup?
    ensures LocalOp(n, op).table == n.table
  {
  }

  lemma TablesStay(c: ClusterState, c': ClusterState, cap: nat)
    requires c'.nodes.Keys == c.nodes.Keys && forall n :: n in c.nodes ==> c'.nodes[n].table == c.nodes[n].table
    ensures Merge(c', cap).table == Merge(c, cap).table
  {
    assert Gids(c') == Gids(c);
    forall k ensures AllMembers(c', k) == AllMembers(c, k) {}
  }

  lemma MergeJoin(c: ClusterState, cap: nat, n: NodeId, uid: Uid, gid: Gid)
    requires WellFormed(c, cap) && Hosts(c, n, uid)
    ensures Merge(SetNode(c, n, Join(c.nodes[n], uid, gid)), cap).table == AddMember(Merge(c, cap).table, gid, uid)
  {
    var c' := SetNode(c, n, Join(c.nodes[n], uid, gid));
    MembersAfter(c.nodes[n].table, gid, uid);
    JoinKeepsCoherent(c.nodes[n], uid, gid);
    forall u | u in AllMembers(c, gid) + {uid} ensures u in AllMembers(c', gid) {
      if u == uid { assert u in MembersOf(c'.nodes[n].table, gid); }
      else {
        var a :| a in c.nodes && u in MembersOf(c.nodes[a].table, gid);
        assert u in MembersOf(c'.nodes[a].table, gid);
      }
    }
    forall u | u in AllMembers(c', gid) ensures u in AllMembers(c, gid) + {uid} {
      var a :| a in c'.nodes && u in MembersOf(c'.nodes[a].table, gid);
      assert u == uid || u in MembersOf(c.nodes[a].table, gid);
    }
    AllNonEmpty(c');
    TablesMerge(c, c', cap, n, gid, AllMembers(c, gid) + {uid});
    MergedMembers(c, cap, gid);
  }

  lemma AllNonEmpty(c: ClusterState)
    requires forall a :: a in c.nodes ==> Coherent(c.nodes[a])
    ensures forall a, k :: a in c.nodes && k in c.nodes[a].table ==> c.nodes[a].table[k] != {}
  {
  }

  lemma MergeOut(c: ClusterState, cap: nat, n: NodeId, uid: Uid, gid: Gid)
    requires WellFormed(c, cap) && Hosts(c, n, uid)
    ensures Merge(SetNode(c, n, Out(c.nodes[n], uid, gid)), cap).table == RemoveMember(Merge(c, cap).table, gid, uid)
  {
    var c' := SetNode(c, n, Out(c.nodes[n], uid, gid));
    MembersAfter(c.nodes[n].table, gid, uid);
    OutKeepsCoherent(c.nodes[n], uid, gid);
    forall u | u in AllMembers(c, gid) - {uid} ensures u in AllMembers(c', gid) {
      var a :| a in c.nodes && u in MembersOf(c.nodes[a].table, gid);
      assert u in MembersOf(c'.nodes[a].table, gid);
    }
    forall u | u in AllMembers(c', gid) ensures u in AllMembers(c, gid) - {uid} {
      var a :| a in c'.nodes && u in MembersOf(c'.nodes[a].table, gid);
      assert u in MembersOf(c.nodes[a].table, gid);
      assert Coherent(c.nodes[a]);
      assert Hosts(c, a, u) && Hosts(c, n, uid);
    }
    AllNonEmpty(c');
    TablesMerge(c, c', cap, n, gid, AllMembers(c, gid) - {uid});
    MergedMembers(c, cap, gid);
  }

  /** If node n changes its table only at gid, so does the merged node. */
  lemma TablesMerge(c: ClusterState, c': ClusterState, cap: nat, n: NodeId, gid: Gid, members: set<Uid>)
    requires n in c.nodes && c'.nodes.Keys == c.nodes.Keys
    requires forall a :: a in c.nodes && a != n ==> c'.nodes[a] == c.nodes[a]
    requires forall k :: k != gid ==>
      ((k in c'.nodes[n].table <==> k in c.nodes[n].table) &&
        MembersOf(c'.nodes[n].table, k) == MembersOf(c.nodes[n].table, k))
    requires forall a, k :: a in c'.nodes && k in c'.nodes[a].table ==> c'.nodes[a].table[k] != {}
    requires AllMembers(c', gid) == members
    ensures Merge(c', cap).table ==
      if members == {} then Merge(c, cap).table - {gid} else Merge(c, cap).table[gid := members]
  {
    forall k | k != gid ensures (k in Gids(c') <==> k in Gids(c)) && AllMembers(c', k) == AllMembers(c, k) {}
    MappedIffMembers(c', gid);
    TablesMergeAt(c, c', cap, gid);
  }

  lemma MappedIffMembers(c: ClusterState, gid: Gid)
    requires forall a, k :: a in c.nodes && k in c.nodes[a].table ==> c.nodes[a].table[k] != {}
    ensures gid in Gids(c) <==> AllMembers(c, gid) != {}
  {
    if gid in Gids(c) {
      var a :| a in c.nodes && gid in c.nodes[a].table;
      var u :| u in c.nodes[a].table[gid];
      assert u in MembersOf(c.nodes[a].table, gid);
    }
    if AllMembers(c, gid) != {} {
      var u :| u in AllMembers(c, gid);
      var a :| a in c.nodes && u in MembersOf(c.nodes[a].table, gid);
    }
  }

  lemma TablesMergeAt(c: ClusterState, c': ClusterState, cap: nat, gid: Gid)
    requires forall k :: k != gid ==> (k in Gids(c') <==> k in Gids(c)) && AllMembers(c', k) == AllMembers(c, k)
    requires gid in Gids(c') <==> AllMembers(c', gid) != {}
    ensures Merge(c', cap).table ==
      if AllMembers(c', gid) == {} then Merge(c, cap).table - {gid}
      else Merge(c, cap).table[gid := AllMembers(c', gid)]
  {
  }

  // ---- RedisProxy: routing -----------------------------------------------------------------

  /** The node that answers at an RPC address. */
  ghost predicate Answers(c: ClusterState, n: NodeId, addr: string) {
    n in c.nodes && AddrOf(n) == addr
  }

  /** GetClientByAddr: the peer table entry under service name + address. */
  function PeerAddr(c: ClusterState, from: NodeId, addr: string): Option<string> {
    if from in c.peers && c.service + addr in c.peers[from] then Some(c.peers[from][c.service + addr]) else None
  }

  /** An RPC to whatever listens at the address; no effect if nothing does. */
  ghost function Remote(c: ClusterState, addr: string, op: Op): (ClusterState, bool) {
    if exists n :: Answers(c, n, addr) then
      var n :| Answers(c, n, addr);
      (SetNode(c, n, LocalOp(c.nodes[n], op)), LocalOk(c.nodes[n], op))
    else (c, false)
  }

  /** SendMsgToUser, SendMsgToUserByTgid, JoinGroup, OutGroup on node `from`: here if the user is
      here, else where the directory says, if it says anything usable and that peer is known. */
  ghost function Route(c: ClusterState, from: NodeId, op: RoutedOp): (ClusterState, bool)
    requires from in c.nodes
  {
    if op.uid in c.nodes[from].clients then
      (SetNode(c, from, LocalOp(c.nodes[from], op)), LocalOk(c.nodes[from], op))
    else if op.uid !in c.directory then (c, false)
    else
      var online := c.directory[op.uid];
      if online.accIp == "" || online.rpcPort == "" then (c, false)
      else
        match PeerAddr(c, from, RpcAddr(online.accIp, online.rpcPort))
        case None => (c, false)
        case Some(addr) => Remote(c, addr, op)
  }

  /** The directory entry of a user connected to node n. */
  function EntryFor(n: NodeId, uid: Uid): UserOnline {
    UserOnline(n.ip, n.wsPort, n.rpcPort, uid)
  }

  /** StopUserClient, on an entry of the directory: compares the entry's own address with the local
      one instead of looking the user up. */
  ghost function RouteStop(c: ClusterState, from: NodeId, online: UserOnline): ClusterState
    requires from in c.nodes
  {
    if online.accIp == from.ip && online.accPort == from.wsPort then
      SetNode(c, from, Stop(c.nodes[from], online.userId))
    else if online.rpcPort == "" then c
    else
      match PeerAddr(c, from, RpcAddr(online.accIp, online.rpcPort))
      case None => c
      case Some(addr) => Remote(c, addr, StopUser(online.userId)).0
  }

  /** The directory names the hosting node of every connected user. */
  ghost predicate DirectoryRight(c: ClusterState) {
    forall n, u :: Hosts(c, n, u) ==>
      u in c.directory && c.directory[u] == EntryFor(n, u) && n.ip != "" && n.rpcPort != ""
  }

  /** Every node knows every other under its own address, and addresses are unambiguous. */
  ghost predicate PeersRight(c: ClusterState) {
    && (forall a, b ::
          a in c.nodes && b in c.nodes && (AddrOf(a) == AddrOf(b) || (a.ip == b.ip && a.wsPort == b.wsPort)) ==> a == b)
    && (forall from, n :: from in c.nodes && n in c.nodes ==> PeerAddr(c, from, AddrOf(n)) == Some(AddrOf(n)))
  }

  lemma RemoteReaches(c: ClusterState, n: NodeId, op: Op)
    requires PeersRight(c) && n in c.nodes
    ensures Remote(c, AddrOf(n), op) == (SetNode(c, n, LocalOp(c.nodes[n], op)), LocalOk(c.nodes[n], op))
  {
    assert Answers(c, n, AddrOf(n));
  }

  lemma RemoteMisses(c: ClusterState, addr: string, op: Op)
    requires forall n :: n in c.nodes ==> op.uid !in c.nodes[n].clients
    ensures Remote(c, addr, op) == (c, false)
  {
    if exists n :: Answers(c, n, addr) {
      var n :| Answers(c, n, addr) &&
        Remote(c, addr, op) == (SetNode(c, n, LocalOp(c.nodes[n], op)), LocalOk(c.nodes[n], op));
      OpOnAbsent(c.nodes[n], op);
      assert c.nodes[n := c.nodes[n]] == c.nodes && SetNode(c, n, LocalOp(c.nodes[n], op)) == c;
    }
  }

  /** From whichever node it is called, an operation on a user changes the cluster exactly as the same
      local call on the node that hosts the user. */
  lemma RouteReachesHost(c: ClusterState, from: NodeId, n: NodeId, op: RoutedOp)
    requires DirectoryRight(c) && PeersRight(c) && HostedOnce(c) && from in c.nodes && Hosts(c, n, op.uid)
    ensures Route(c, from, op) == (SetNode(c, n, LocalOp(c.nodes[n], op)), LocalOk(c.nodes[n], op))
  {
    if op.uid in c.nodes[from].clients {
      assert Hosts(c, from, op.uid);
    } else {
      RemoteReaches(c, n, op);
    }
  }

  /** And changes nothing when the user is nowhere, whatever the directory still says. */
  lemma RouteToNobody(c: ClusterState, from: NodeId, op: RoutedOp)
    requires from in c.nodes && (forall n :: n in c.nodes ==> op.uid !in c.nodes[n].clients)
    ensures Route(c, from, op) == (c, false)
  {
    if op.uid in c.directory {
      var online := c.directory[op.uid];
      match PeerAddr(c, from, RpcAddr(online.accIp, online.rpcPort))
      case None =>
      case Some(addr) => RemoteMisses(c, addr, op);
    }
  }

  lemma OpOnAbsent(n: NodeVal, op: Op)
    requires op.uid !in n.clients
    ensures LocalOp(n, op) == n && !LocalOk(n, op)
  {
  }

  /** Location transparency: routed from any node, an operation on a user is the local operation on
      the one big node, with the same success. */
  lemma LocationTransparency(c: ClusterState, cap: nat, from: NodeId, op: RoutedOp)
    requires WellFormed(c, cap) && DirectoryRight(c) && PeersRight(c) && from in c.nodes
    ensures Merge(Route(c, from, op).0, cap) == LocalOp(Merge(c, cap), op)
    ensures Route(c, from, op).1 == LocalOk(Merge(c, cap), op)
  {
    if op.uid in Users(c) {
      var n := HostOf(c, op.uid);
      RouteReachesHost(c, from, n, op);
      MergeOp(c, cap, n, op);
    } else {
      forall n | n in c.nodes ensures op.uid !in c.nodes[n].clients {
        assert op.uid in c.nodes[n].clients ==> op.uid in Users(c);
      }
      RouteToNobody(c, from, op);
      OpOnAbsent(Merge(c, cap), op);
    }
  }

  /** Stopping by the entry a node had made for a user stops the user there, from whichever node and
      whatever the directory says by now: a login deletes the key before it stops the loser. */
  lemma StopReachesHost(c: ClusterState, from: NodeId, n: NodeId, uid: Uid)
    requires PeersRight(c) && from in c.nodes && Hosts(c, n, uid) && (n != from ==> n.rpcPort != "")
    ensures RouteStop(c, from, EntryFor(n, uid)) == SetNode(c, n, Stop(c.nodes[n], uid))
  {
    if n != from { RemoteReaches(c, n, StopUser(uid)); }
  }

  /** An entry for a user that is nowhere stops nobody. */
  lemma StopOfNobody(c: ClusterState, from: NodeId, online: UserOnline)
    requires from in c.nodes && (forall n :: n in c.nodes ==> online.userId !in c.nodes[n].clients)
    ensures RouteStop(c, from, online) == c
  {
    assert c.nodes[from := c.nodes[from]] == c.nodes;
    match PeerAddr(c, from, RpcAddr(online.accIp, online.rpcPort))
    case None =>
    case Some(addr) => RemoteMisses(c, addr, StopUser(online.userId));
  }

  /** The entry names the node that hosts the user, or the user is nowhere. */
  ghost predicate EntryIsTrue(c: ClusterState, online: UserOnline) {
    || (forall n :: n in c.nodes ==> online.userId !in c.nodes[n].clients)
    || (exists n :: Hosts(c, n, online.userId) && online == EntryFor(n, online.userId) && n.rpcPort != "")
  }

  /** Then stopping by it from any node is the local stop on the one big node. */
  lemma StopIsTransparent(c: ClusterState, cap: nat, from: NodeId, online: UserOnline)
    requires WellFormed(c, cap) && PeersRight(c) && from in c.nodes && EntryIsTrue(c, online)
    ensures Merge(RouteStop(c, from, online), cap) == Stop(Merge(c, cap), online.userId)
  {
    if n :| Hosts(c, n, online.userId) && online == EntryFor(n, online.userId) && n.rpcPort != "" {
      StopReachesHost(c, from, n, online.userId);
      MergeOp(c, cap, n, StopUser(online.userId));
    } else {
      StopOfNobody(c, from, online);
      NobodyIsMerged(c, cap, online.userId);
    }
  }

  lemma NobodyIsMerged(c: ClusterState, cap: nat, uid: Uid)
    requires forall n :: n in c.nodes ==> uid !in c.nodes[n].clients
    ensures uid !in Merge(c, cap).clients
  {
  }

  /** The conditions under which routing is right; no routed operation disturbs them. */
  ghost predicate Settled(c: ClusterState, cap: nat) {
    WellFormed(c, cap) && DirectoryRight(c) && PeersRight(c)
  }

  lemma OpKeepsCoherent(n: NodeVal, op: Op)
    requires Coherent(n)
    ensures Coherent(LocalOp(n, op)) && LocalOp(n, op).cap == n.cap && LocalOp(n, op).clients.Keys == n.clients.Keys
  {
    match op
    case SendMsg(uid, m) => SendsKeepCoherent(n, uid, "", m, GroupMsg("", []));
    case SendMsgByTgid(uid, gid, m) => SendsKeepCoherent(n, uid, gid, m, GroupMsg("", []));
    case JoinGroup(uid, gid) => JoinKeepsCoherent(n, uid, gid);
    case OutGroup(uid, gid) => OutKeepsCoherent(n, uid, gid);
    case StopUser(uid) => SendsKeepCoherent(n, uid, "", [], GroupMsg("", []));
  }

  /** Node contents may change as long as nobody connects or disconnects. */
  lemma SameConnections(c: ClusterState, c': ClusterState, cap: nat)
    requires Settled(c, cap) && c' == c.(nodes := c'.nodes) && c'.nodes.Keys == c.nodes.Keys
    requires forall n :: n in c.nodes ==>
      Coherent(c'.nodes[n]) && c'.nodes[n].cap == cap && c'.nodes[n].clients.Keys == c.nodes[n].clients.Keys
    ensures Settled(c', cap)
  {
    SameHosts(c, c');
    forall n, u | Hosts(c', n, u) ensures Hosts(c, n, u) {}
    forall a, b | a in c'.nodes && b in c'.nodes ensures PeerAddr(c', a, AddrOf(b)) == Some(AddrOf(b)) {
      assert PeerAddr(c, a, AddrOf(b)) == Some(AddrOf(b));
    }
  }

  lemma OpKeepsSettled(c: ClusterState, cap: nat, n: NodeId, op: Op)
    requires Settled(c, cap) && n in c.nodes
    ensures Settled(SetNode(c, n, LocalOp(c.nodes[n], op)), cap)
  {
    OpKeepsCoherent(c.nodes[n], op);
    SameConnections(c, SetNode(c, n, LocalOp(c.nodes[n], op)), cap);
  }

  lemma RouteKeepsSettled(c: ClusterState, cap: nat, from: NodeId, op: RoutedOp)
    requires Settled(c, cap) && from in c.nodes
    ensures Settled(Route(c, from, op).0, cap) && Route(c, from, op).0.nodes.Keys == c.nodes.Keys
  {
    if op.uid in Users(c) {
      var n := HostOf(c, op.uid);
      RouteReachesHost(c, from, n, op);
      OpKeepsSettled(c, cap, n, op);
    } else {
      forall n | n in c.nodes ensures op.uid !in c.nodes[n].clients {
        assert op.uid in c.nodes[n].clients ==> op.uid in Users(c);
      }
      RouteToNobody(c, from, op);
    }
  }

  lemma StopIsLocal(c: ClusterState, from: NodeId, online: UserOnline) returns (n: NodeId)
    requires PeersRight(c) && from in c.nodes && EntryIsTrue(c, online)
    ensures n in c.nodes && RouteStop(c, from, online) == SetNode(c, n, LocalOp(c.nodes[n], StopUser(online.userId)))
  {
    if m :| Hosts(c, m, online.userId) && online == EntryFor(m, online.userId) && m.rpcPort != "" {
      n := m;
      StopReachesHost(c, from, n, online.userId);
    } else {
      n := from;
      StopOfNobody(c, from, online);
      assert c.nodes[from := c.nodes[from]] == c.nodes;
    }
  }

  lemma StopKeepsSettled(c: ClusterState, cap: nat, from: NodeId, online: UserOnline)
    requires Settled(c, cap) && from in c.nodes && EntryIsTrue(c, online)
    ensures Settled(RouteStop(c, from, online), cap) && RouteStop(c, from, online).nodes.Keys == c.nodes.Keys
  {
    var n := StopIsLocal(c, from, online);
    OpKeepsSettled(c, cap, n, StopUser(online.userId));
  }
}
