/** One node as a value: its connected clients and who is in which group. The operations are those
    of `LocalProxy`; the cluster is compared with them. */
module NodeSpec {
  import opened Types

  /** A registered client: its send queue, and the groups it has joined. */
  datatype ClientVal = ClientVal(online: bool, groups: set<Gid>, queue: seq<Bytes>)

  /** `cap` is ClientMsgChanMax. */
  datatype NodeVal = NodeVal(cap: nat, clients: map<Uid, ClientVal>, table: Table)

  /** Members are registered clients, and each client knows its groups. */
  ghost predicate Coherent(n: NodeVal) {
    && (forall k :: k in n.table ==> n.table[k] != {} && n.table[k] <= n.clients.Keys)
    && (forall u, k :: u in n.clients ==> (k in n.clients[u].groups <==> u in MembersOf(n.table, k)))
  }

  /** SafeSendMsg with sendType 2: queue the message, or take a client with a full queue offline. */
  function Offer(c: ClientVal, cap: nat, m: Bytes): ClientVal {
    if !c.online then c
    else if |c.queue| < cap then c.(queue := c.queue + [m])
    else c.(online := false)
  }

  predicate Accepts(c: ClientVal, cap: nat) {
    c.online && |c.queue| < cap
  }

  function SetClient(n: NodeVal, uid: Uid, c: ClientVal): NodeVal {
    n.(clients := n.clients[uid := c])
  }

  function SendToUser(n: NodeVal, uid: Uid, m: Bytes): NodeVal {
    if uid in n.clients then SetClient(n, uid, Offer(n.clients[uid], n.cap, m)) else n
  }

  predicate SendToUserOk(n: NodeVal, uid: Uid) {
    uid in n.clients && Accepts(n.clients[uid], n.cap)
  }

  /** Only if the client is in the group; not being in it is no error. */
  function SendToUserByTgid(n: NodeVal, uid: Uid, gid: Gid, m: Bytes): NodeVal {
    if uid in n.clients && gid in n.clients[uid].groups then SendToUser(n, uid, m) else n
  }

  predicate SendToUserByTgidOk(n: NodeVal, uid: Uid, gid: Gid) {
    uid in n.clients && (gid in n.clients[uid].groups ==> Accepts(n.clients[uid], n.cap))
  }

  /** The message offered to the clients in `who`. */
  function OfferAll(clients: map<Uid, ClientVal>, who: set<Uid>, cap: nat, m: Bytes): map<Uid, ClientVal> {
    map u | u in clients :: if u in who then Offer(clients[u], cap, m) else clients[u]
  }

  lemma OfferOneMore(clients: map<Uid, ClientVal>, who: set<Uid>, uid: Uid, cap: nat, m: Bytes)
    requires uid !in who
    ensures OfferAll(clients, who + {uid}, cap, m) ==
      if uid in clients then OfferAll(clients, who, cap, m)[uid := Offer(clients[uid], cap, m)]
      else OfferAll(clients, who, cap, m)
    ensures uid in clients ==> OfferAll(clients, who, cap, m)[uid] == clients[uid]
  {
  }

  /** One group message handed to every member but the excluded one. */
  function FanOut(n: NodeVal, gid: Gid, msg: GroupMsg): NodeVal {
    n.(clients := OfferAll(n.clients, MembersOf(n.table, gid) - {msg.exceptUid}, n.cap, msg.msg))
  }

  /** A queue of group messages, handed out in order. */
  function FanOutAll(n: NodeVal, gid: Gid, msgs: seq<GroupMsg>): NodeVal {
    if msgs == [] then n else FanOut(FanOutAll(n, gid, msgs[..|msgs| - 1]), gid, msgs[|msgs| - 1])
  }

  function Join(n: NodeVal, uid: Uid, gid: Gid): NodeVal {
    if uid in n.clients then
      SetClient(n, uid, n.clients[uid].(groups := n.clients[uid].groups + {gid}))
        .(table := AddMember(n.table, gid, uid))
    else n
  }

  function Out(n: NodeVal, uid: Uid, gid: Gid): NodeVal {
    if uid in n.clients then
      SetClient(n, uid, n.clients[uid].(groups := n.clients[uid].groups - {gid}))
        .(table := RemoveMember(n.table, gid, uid))
    else n
  }

  function Stop(n: NodeVal, uid: Uid): NodeVal {
    if uid in n.clients then SetClient(n, uid, n.clients[uid].(online := false)) else n
  }

  function Connect(n: NodeVal, uid: Uid): NodeVal {
    SetClient(n, uid, ClientVal(true, {}, []))
  }

  /** User uid taken out of the given groups; emptied groups disappear. */
  function RemoveFrom(m: Table, gids: set<Gid>, uid: Uid): Table {
    map k | k in m && (k in gids ==> m[k] - {uid} != {}) :: if k in gids then m[k] - {uid} else m[k]
  }

  lemma RemoveOneMore(m: Table, gids: set<Gid>, gid: Gid, uid: Uid)
    requires forall k :: k in m ==> m[k] != {}
    ensures RemoveMember(RemoveFrom(m, gids, uid), gid, uid) == RemoveFrom(m, gids + {gid}, uid)
  {
    var a, b := RemoveMember(RemoveFrom(m, gids, uid), gid, uid), RemoveFrom(m, gids + {gid}, uid);
    forall k ensures k in a <==> k in b {}
    forall k | k in a ensures a[k] == b[k] {}
  }

  /** A client after leaving the given groups. */
  function OutOf(n: NodeVal, uid: Uid, gids: set<Gid>): NodeVal
    requires uid in n.clients
  {
    SetClient(n, uid, n.clients[uid].(groups := n.clients[uid].groups - gids)).(table := RemoveFrom(n.table, gids, uid))
  }

  lemma OutOfNothing(n: NodeVal, uid: Uid)
    requires uid in n.clients
    ensures OutOf(n, uid, {}) == n
  {
    assert n.clients[uid].groups - {} == n.clients[uid].groups;
  }

  lemma OutOfOneMore(n: NodeVal, uid: Uid, gids: set<Gid>, gid: Gid)
    requires uid in n.clients && forall k :: k in n.table ==> n.table[k] != {}
    ensures Out(OutOf(n, uid, gids), uid, gid) == OutOf(n, uid, gids + {gid})
  {
    RemoveOneMore(n.table, gids, gid, uid);
    assert n.clients[uid].groups - gids - {gid} == n.clients[uid].groups - (gids + {gid});
  }

  /** Out of every group, then forgotten. */
  function Disconnect(n: NodeVal, uid: Uid): NodeVal {
    n.(clients := n.clients - {uid},
       table := map k | k in n.table && n.table[k] - {uid} != {} :: n.table[k] - {uid})
  }

  /** What the code does: leave the groups the client itself notes, then forget the client. */
  function Teardown(n: NodeVal, uid: Uid): NodeVal
    requires uid in n.clients
  {
    n.(clients := n.clients - {uid}, table := RemoveFrom(n.table, n.clients[uid].groups, uid))
  }

  lemma TeardownInSteps(n: NodeVal, uid: Uid)
    requires uid in n.clients
    ensures var m := OutOf(n, uid, n.clients[uid].groups); m.(clients := m.clients - {uid}) == Teardown(n, uid)
  {
  }

  /** If clients and groups agree, that takes the client out of every group. */
  lemma TeardownIsComplete(n: NodeVal, uid: Uid)
    requires Coherent(n) && uid in n.clients
    ensures Teardown(n, uid) == Disconnect(n, uid)
    ensures forall k :: uid !in MembersOf(Teardown(n, uid).table, k)
  {
    forall k | k in n.table ensures k in n.clients[uid].groups <==> uid in n.table[k] {
      assert k in n.clients[uid].groups <==> uid in MembersOf(n.table, k);
    }
    forall k | k in n.table && uid !in n.table[k] ensures n.table[k] - {uid} == n.table[k] {}
  }

  lemma SendsKeepCoherent(n: NodeVal, uid: Uid, gid: Gid, m: Bytes, gm: GroupMsg)
    requires Coherent(n)
    ensures Coherent(SendToUser(n, uid, m)) && Coherent(SendToUserByTgid(n, uid, gid, m))
    ensures Coherent(FanOut(n, gid, gm)) && Coherent(Stop(n, uid))
  {
  }

  lemma JoinKeepsCoherent(n: NodeVal, uid: Uid, gid: Gid)
    requires Coherent(n)
    ensures Coherent(Join(n, uid, gid))
  {
    var j := Join(n, uid, gid);
    MembersAfter(n.table, gid, uid);
    forall k | k in j.table ensures j.table[k] != {} && j.table[k] <= j.clients.Keys {
      assert MembersOf(j.table, k) <= MembersOf(n.table, k) + if uid in n.clients then {uid} else {};
    }
  }

  lemma OutKeepsCoherent(n: NodeVal, uid: Uid, gid: Gid)
    requires Coherent(n)
    ensures Coherent(Out(n, uid, gid))
  {
    var o := Out(n, uid, gid);
    MembersAfter(n.table, gid, uid);
    forall k | k in o.table ensures o.table[k] != {} && o.table[k] <= o.clients.Keys {
      assert MembersOf(o.table, k) <= MembersOf(n.table, k);
    }
  }

  lemma ConnectionsKeepCoherent(n: NodeVal, uid: Uid)
    requires Coherent(n)
    ensures Coherent(Disconnect(n, uid))
    ensures uid !in n.clients ==> Coherent(Connect(n, uid))
  {
    var d := Disconnect(n, uid);
    forall u, k | u in d.clients ensures k in d.clients[u].groups <==> u in MembersOf(d.table, k) {
      assert k in n.clients[u].groups <==> u in MembersOf(n.table, k);
    }
  }
}
