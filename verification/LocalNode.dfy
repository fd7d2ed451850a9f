/** The objects of one node, one call at a time: groups, clients and the two managers. Each method is
    proved against the value-level operation of NodeSpec. What interleaved calls do is the subject of
    GroupProtocol and ClientQueue. */
module LocalNode {
  import opened Types
  import opened NodeSpec
  import opened Effects

  /** A socket; only its identity matters. */
  type Conn = nat

  class TGroup {
    const gid: Gid
    const cap: nat          // GroupMsgChanMax
    var state: int          // 1 normal, 2 deleted
    var users: set<Uid>
    var send: seq<GroupMsg>
    var closes: nat         // how often the channel has been closed

    constructor (gid: Gid, cap: nat)
      ensures this.gid == gid && this.cap == cap && state == 1 && users == {} && send == [] && closes == 0
    {
      this.gid, this.cap, state, users, send, closes := gid, cap, 1, {}, [], 0;
    }

    method UserJoin(uid: Uid) returns (ok: bool)
      modifies this`users
      ensures ok <==> state != 2
      ensures users == if ok then old(users) + {uid} else old(users)
    {
      if state == 2 {
        return false;
      }
      users := users + {uid};
      ok := true;
    }

    method CloseSend()
      modifies this`state, this`closes
      ensures state == 2
      ensures closes == if old(state) == 2 then old(closes) else old(closes) + 1
    {
      if state == 2 {
        return;
      }
      state := 2;
      closes := closes + 1;
    }

    /** A deleted group takes no message, and a send on a closed channel panics and is recovered. On a
        full channel the caller waits, and nothing has happened yet. */
    method SendChan(m: GroupMsg) returns (waits: bool)
      modifies this`send
      ensures waits <==> state != 2 && closes == 0 && |old(send)| >= cap
      ensures send == if state == 2 || closes > 0 || waits then old(send) else old(send) + [m]
    {
      waits := false;
      if state == 2 || closes > 0 {
        return;
      }
      if |send| < cap {
        send := send + [m];
      } else {
        waits := true;
      }
    }
  }

  class Client {
    const userId: Uid
    const socket: Conn
    const cap: nat
    var online: bool
    var tgroup: set<Gid>
    var sendChan: seq<Bytes>
    var chanCloses: nat
    var closedOnce: bool    // closeOnce has run

    constructor (uid: Uid, socket: Conn, cap: nat)
      ensures userId == uid && this.socket == socket && this.cap == cap
      ensures Val() == ClientVal(true, {}, []) && chanCloses == 0 && !closedOnce
    {
      userId, this.socket, this.cap := uid, socket, cap;
      online, tgroup, sendChan, chanCloses, closedOnce := true, {}, [], 0, false;
    }

    function Val(): ClientVal
      reads this
    {
      ClientVal(online, tgroup, sendChan)
    }

    method Close()
      modifies this`online
      ensures !online
    {
      if !online {
        return;
      }
      online := false;
    }

    /** A synchronous send goes to the socket and reports no error. An asynchronous one is queued; on a
        full queue the client is closed; on a closed queue the panic is recovered, the client closed
        and no error reported. */
    method SafeSendMsg(msg: Bytes, async: bool) returns (ok: bool)
      modifies this`online, this`sendChan
      ensures Val() ==
        if !async then old(Val())
        else if chanCloses > 0 then old(Val()).(online := false)
        else Offer(old(Val()), cap, msg)
      ensures sendChan ==
        old(sendChan) + if old(online) && async && chanCloses == 0 && |old(sendChan)| < cap then [msg] else []
      ensures online <==> old(online) && (async ==> chanCloses == 0 && |old(sendChan)| < cap)
      ensures ok <==> old(online) && (async && chanCloses == 0 ==> |old(sendChan)| < cap)
    {
      if !online {
        return false;
      }
      ok := true;
      if async {
        if chanCloses > 0 {
          Close();
        } else if |sendChan| < cap {
          sendChan := sendChan + [msg];
        } else {
          Close();
          ok := false;
        }
      }
    }
  }

  /** The state behind `TGroupM` and `ClientM`. */
  class Node {
    const cap: nat          // ClientMsgChanMax
    const groupCap: nat     // GroupMsgChanMax
    var tgroups: map<Gid, TGroup>
    var clients: map<Uid, Client>
    var connIdx: map<Conn, Client>

    /** Mapped groups are live and open, and named after their key. */
    ghost predicate GroupsOk()
      reads this`tgroups, tgroups.Values
    {
      forall k :: k in tgroups ==> tgroups[k].gid == k && tgroups[k].state == 1 && tgroups[k].closes == 0
    }

    /** The two client indices are in one-to-one correspondence; no client in them has been torn down. */
    ghost predicate ClientsOk()
      reads this`clients, this`connIdx, clients.Values
    {
      && (forall u :: u in clients ==>
        clients[u].userId == u && clients[u].cap == cap && clients[u].chanCloses == 0 && !clients[u].closedOnce)
      && (forall u :: u in clients ==> clients[u].socket in connIdx && connIdx[clients[u].socket] == clients[u])
      && (forall k :: k in connIdx ==>
        connIdx[k].socket == k && connIdx[k].userId in clients && clients[connIdx[k].userId] == connIdx[k])
    }

    ghost function TableVal(): Table
      reads this`tgroups, tgroups.Values
    {
      map k | k in tgroups && tgroups[k].users != {} :: tgroups[k].users
    }

    ghost function ClientsVal(): map<Uid, ClientVal>
      reads this`clients, clients.Values
    {
      map u | u in clients :: clients[u].Val()
    }

    ghost function Val(): NodeVal
      reads this`clients, this`tgroups, clients.Values, tgroups.Values
    {
      NodeVal(cap, ClientsVal(), TableVal())
    }

    /** Between calls: the indices are in order and no mapped group is empty. */
    ghost predicate Valid()
      reads this, clients.Values, tgroups.Values
    {
      GroupsOk() && ClientsOk() && NoEmptyGroup()
    }

    ghost predicate NoEmptyGroup()
      reads this`tgroups, tgroups.Values
    {
      forall k :: k in tgroups ==> tgroups[k].users != {}
    }

    constructor (cap: nat, groupCap: nat)
      ensures Valid() && Val() == NodeVal(cap, map[], map[])
    {
      this.cap, this.groupCap, tgroups, clients, connIdx := cap, groupCap, map[], map[], map[];
    }

    method GetOrCreateTGroup(gid: Gid) returns (g: TGroup)
      requires GroupsOk()
      modifies this`tgroups
      ensures GroupsOk() && gid in tgroups && tgroups[gid] == g
      ensures tgroups == old(tgroups)[gid := g] && (gid in old(tgroups) ==> tgroups == old(tgroups))
      ensures gid !in old(tgroups) ==>
        fresh(g) && g.users == {} && g.send == [] && g.cap == groupCap && g.state == 1 && g.closes == 0
      ensures TableVal() == old(TableVal()) && MembersOf(TableVal(), gid) == g.users
    {
      if gid in tgroups {
        return tgroups[gid];
      }
      g := new TGroup(gid, groupCap);
      tgroups := tgroups[gid := g];
    }

    /** Removes the entry only if it is this very object. */
    method DeleteTGroup(g: TGroup)
      modifies this`tgroups
      ensures tgroups ==
        if g.gid in old(tgroups) && old(tgroups)[g.gid] == g then old(tgroups) - {g.gid} else old(tgroups)
    {
      if g.gid in tgroups && tgroups[g.gid] == g {
        tgroups := tgroups - {g.gid};
      }
    }

    /** A group somebody may still refer to: mapped, or deleted. */
    ghost predicate Listened(g: TGroup)
      reads this`tgroups, g
    {
      g.state == 2 || (g.gid in tgroups && tgroups[g.gid] == g)
    }

    /** The group found may be new and empty, or deleted by now; no other group is empty. */
    ghost predicate Joinable(g: TGroup)
      reads this`tgroups, tgroups.Values, g
    {
      && GroupsOk() && Listened(g)
      && (g.state == 2 ==> NoEmptyGroup())
      && (forall k :: k in tgroups && k != g.gid ==> tgroups[k].users != {})
    }

    method TryJoin(g: TGroup, uid: Uid) returns (ok: bool)
      requires Joinable(g)
      modifies g`users
      ensures ok <==> g.state != 2
      ensures GroupsOk() && NoEmptyGroup()
      ensures TableVal() == if ok then AddMember(old(TableVal()), g.gid, uid) else old(TableVal())
    {
      assert forall k :: k in tgroups && k != g.gid ==> tgroups[k] != g;
      ok := g.UserJoin(uid);
    }

    /** UserJoinTGroup once the group is found: a deleted one refuses, and the call starts again. */
    method JoinFound(g: TGroup, uid: Uid)
      requires Joinable(g)
      modifies this`tgroups, tgroups.Values, g
      ensures GroupsOk() && NoEmptyGroup()
      ensures TableVal() == AddMember(old(TableVal()), g.gid, uid)
      ensures fresh(tgroups.Values - old(tgroups.Values))
      decreases if g.state == 2 then 2 else 0
    {
      var ok := TryJoin(g, uid);
      if !ok {
        UserJoinTGroup(g.gid, uid);
      }
    }

    method UserJoinTGroup(gid: Gid, uid: Uid)
      requires GroupsOk() && NoEmptyGroup()
      modifies this`tgroups, tgroups.Values
      ensures GroupsOk() && NoEmptyGroup()
      ensures TableVal() == AddMember(old(TableVal()), gid, uid)
      ensures fresh(tgroups.Values - old(tgroups.Values))
      decreases 1
    {
      var g := GetOrCreateTGroup(gid);
      JoinFound(g, uid);
    }

    /** A leave that empties the group unmaps it, marks it deleted and closes its channel. */
    method UserOutTGroup(gid: Gid, uid: Uid) returns (found: bool)
      requires GroupsOk() && NoEmptyGroup()
      modifies this`tgroups, tgroups.Values
      ensures GroupsOk() && NoEmptyGroup()
      ensures TableVal() == RemoveMember(old(TableVal()), gid, uid)
      ensures found <==> gid in old(tgroups)
      ensures tgroups.Values <= old(tgroups.Values)
      ensures gid in old(tgroups) && gid !in tgroups ==> old(tgroups)[gid].state == 2 && old(tgroups)[gid].closes == 1
    {
      if gid !in tgroups {
        return false;
      }
      var g := tgroups[gid];
      g.users := g.users - {uid};
      if g.users == {} {
        DeleteTGroup(g);
        g.CloseSend();
      }
      found := true;
    }

    /** The client's own note of a group it is now in, or no longer in. */
    method Note(c: Client, gids: set<Gid>)
      requires ClientsOk() && c.userId in clients && clients[c.userId] == c
      modifies c`tgroup
      ensures ClientsOk() && ClientsVal() == old(ClientsVal())[c.userId := old(c.Val()).(groups := gids)]
      ensures c.tgroup == gids && TableVal() == old(TableVal())
      ensures old(GroupsOk() && NoEmptyGroup()) ==> GroupsOk() && NoEmptyGroup()
    {
      c.tgroup := gids;
    }

    /** The group side of a join; it leaves the clients alone. */
    method JoinOnly(gid: Gid, uid: Uid)
      requires Valid()
      modifies this`tgroups, tgroups.Values
      ensures Valid() && ClientsVal() == old(ClientsVal()) && TableVal() == AddMember(old(TableVal()), gid, uid)
      ensures fresh(tgroups.Values - old(tgroups.Values))
    {
      UserJoinTGroup(gid, uid);
      assert ClientsVal() == old(ClientsVal());
      assert ClientsOk();
    }

    /** Client.InTGroup: the group first, then the client's own set. */
    method InTGroup(c: Client, gid: Gid)
      requires Valid() && c.userId in clients && clients[c.userId] == c
      modifies this`tgroups, tgroups.Values, c`tgroup
      ensures Valid() && Val() == Join(old(Val()), c.userId, gid)
      ensures c.tgroup == old(c.tgroup) + {gid}
      ensures clients == old(clients) && connIdx == old(connIdx)
    {
      JoinOnly(gid, c.userId);
      Note(c, c.tgroup + {gid});
    }

    method OutTGroup(c: Client, gid: Gid)
      requires Valid() && c.userId in clients && clients[c.userId] == c
      modifies this`tgroups, tgroups.Values, c`tgroup
      ensures Valid() && Val() == Out(old(Val()), c.userId, gid)
      ensures c.tgroup == old(c.tgroup) - {gid}
      ensures clients == old(clients) && connIdx == old(connIdx)
      ensures tgroups.Values <= old(tgroups.Values)
    {
      var _ := UserOutTGroup(gid, c.userId);
      assert ClientsOk() && ClientsVal() == old(ClientsVal());
      Note(c, c.tgroup - {gid});
    }

    /** Leaves the client's groups one by one, in any order, deleting from the set it ranges over. */
    method OutAllTGroup(c: Client)
      requires Valid() && c.userId in clients && clients[c.userId] == c
      modifies this`tgroups, tgroups.Values, c`tgroup
      ensures Valid() && clients == old(clients) && connIdx == old(connIdx)
      ensures Val() == OutOf(old(Val()), c.userId, old(c.tgroup)) && c.tgroup == {}
      ensures tgroups.Values <= old(tgroups.Values)
    {
      ghost var start, left, done := Val(), c.tgroup, {};
      OutOfNothing(start, c.userId);
      while c.tgroup != {}
        invariant Valid() && clients == old(clients) && connIdx == old(connIdx)
        invariant c.tgroup == left - done && done <= left
        invariant Val() == OutOf(start, c.userId, done)
        invariant tgroups.Values <= old(tgroups.Values)
        decreases |c.tgroup|
      {
        var gid :| gid in c.tgroup;
        OutOfOneMore(start, c.userId, done, gid);
        OutTGroup(c, gid);
        done := done + {gid};
      }
      assert done == left;
    }

    /** AddClient and AddClientConn. The correspondence of the two indices survives exactly when the
        uid was not registered already. */
    method Register(c: Client)
      requires ClientsOk() && c.socket !in connIdx && c.cap == cap && c.chanCloses == 0 && !c.closedOnce
      modifies this`clients, this`connIdx
      ensures clients == old(clients)[c.userId := c] && connIdx == old(connIdx)[c.socket := c]
      ensures ClientsOk() <==> c.userId !in old(clients)
      ensures ClientsVal() == old(ClientsVal())[c.userId := c.Val()]
    {
      ghost var before := clients;
      clients := clients[c.userId := c];
      connIdx := connIdx[c.socket := c];
      if c.userId in before {
        assert connIdx[before[c.userId].socket] == before[c.userId] != c;
      }
    }

    method OnConnect(c: Client)
      requires Valid() && c.socket !in connIdx && c.cap == cap && c.chanCloses == 0 && !c.closedOnce
      modifies this`clients, this`connIdx
      ensures clients == old(clients)[c.userId := c] && connIdx == old(connIdx)[c.socket := c]
      ensures ClientsOk() <==> c.userId !in old(clients)
      ensures c.userId !in old(clients) ==> Valid()
      ensures Val() == SetClient(old(Val()), c.userId, c.Val())
    {
      ghost var table := TableVal();
      Register(c);
      assert TableVal() == table;
    }

    /** Out of its groups and out of both indices. */
    method Remove(c: Client)
      requires Valid() && c.userId in clients && clients[c.userId] == c
      modifies this, tgroups.Values, c`tgroup
      ensures Valid() && Val() == Teardown(old(Val()), c.userId)
      ensures c !in clients.Values && c.userId !in clients && c.socket !in connIdx && c.tgroup == {}
    {
      TeardownInSteps(Val(), c.userId);
      OutAllTGroup(c);
      Forget(c);
    }

    /** Tears a client down: out of its groups, out of both indices, queue closed. Runs once. */
    method OnClose(c: Client) returns (closed: bool)
      requires Valid() && (c.closedOnce || (c.userId in clients && clients[c.userId] == c))
      modifies this, tgroups.Values, c
      ensures Valid() && c.closedOnce && closed == !old(c.closedOnce)
      ensures Val() == if closed then Teardown(old(Val()), c.userId) else old(Val())
      ensures closed ==> c.userId !in clients && c.socket !in connIdx && !c.online && c.tgroup == {}
      ensures c.chanCloses == if closed then old(c.chanCloses) + 1 else old(c.chanCloses)
    {
      if c.closedOnce {
        return false;
      }
      Remove(c);
      MarkClosed(c);
      closed := true;
    }

    method MarkClosed(c: Client)
      requires Valid() && c !in clients.Values
      modifies c
      ensures Valid() && Val() == old(Val())
      ensures !c.online && c.closedOnce && c.chanCloses == old(c.chanCloses) + 1 && c.tgroup == old(c.tgroup)
    {
      c.online, c.chanCloses, c.closedOnce := false, c.chanCloses + 1, true;
    }

    /** DelClient and DelClientConn. */
    method Forget(c: Client)
      requires ClientsOk() && c.userId in clients && clients[c.userId] == c
      modifies this`clients, this`connIdx
      ensures ClientsOk() && ClientsVal() == old(ClientsVal()) - {c.userId}
      ensures TableVal() == old(TableVal())
      ensures clients == old(clients) - {c.userId} && connIdx == old(connIdx) - {c.socket}
      ensures c !in clients.Values
    {
      clients := clients - {c.userId};
      connIdx := connIdx - {c.socket};
    }

    method OfferTo(uid: Uid, m: Bytes) returns (ok: bool)
      requires ClientsOk() && uid in clients
      modifies clients[uid]
      ensures ClientsOk() && ClientsVal() == old(ClientsVal())[uid := Offer(old(ClientsVal())[uid], cap, m)]
      ensures ok <==> Accepts(old(ClientsVal())[uid], cap)
    {
      assert forall u :: u in clients && u != uid ==> clients[u] != clients[uid];
      ok := clients[uid].SafeSendMsg(m, true);
    }

    /** The loop of SendToUsers: in any order, skipping the excluded user and users without a client. */
    method OfferEach(users: set<Uid>, msg: GroupMsg)
      requires ClientsOk()
      modifies clients.Values
      ensures ClientsOk() && ClientsVal() == OfferAll(old(ClientsVal()), users - {msg.exceptUid}, cap, msg.msg)
    {
      ghost var start, done := ClientsVal(), {};
      assert ClientsVal() == OfferAll(start, done, cap, msg.msg);
      var todo := users;
      while todo != {}
        invariant ClientsOk() && todo <= users && done == users - todo - {msg.exceptUid}
        invariant ClientsVal() == OfferAll(start, done, cap, msg.msg)
        decreases |todo|
      {
        var uid :| uid in todo;
        if uid != msg.exceptUid {
          OfferOneMore(start, done, uid, cap, msg.msg);
          if uid in clients {
            var _ := OfferTo(uid, msg.msg);
          }
          done := done + {uid};
        }
        todo := todo - {uid};
      }
      assert done == users - {msg.exceptUid};
    }

    /** SendMessageToTGroup: into the channel of the mapped group, if there is one. */
    method SendMessageToTGroup(gid: Gid, m: GroupMsg) returns (waits: bool)
      requires Valid()
      modifies tgroups.Values
      ensures Valid() && Val() == old(Val())
      ensures waits <==> gid in tgroups && |old(tgroups[gid].send)| >= tgroups[gid].cap
      ensures forall k :: k in tgroups ==>
        tgroups[k].send == if k == gid && !waits then old(tgroups[k].send) + [m] else old(tgroups[k].send)
    {
      waits := false;
      if gid in tgroups {
        assert forall k :: k in tgroups && k != gid ==> tgroups[k] != tgroups[gid];
        waits := tgroups[gid].SendChan(m);
      }
    }

    /** One group message to every member but the excluded one; nothing if the group is deleted. */
    method SendToUsers(g: TGroup, msg: GroupMsg)
      requires Valid() && (g.state == 2 || (g.gid in tgroups && tgroups[g.gid] == g))
      modifies clients.Values
      ensures Valid() && Val() == if g.state == 2 then old(Val()) else FanOut(old(Val()), g.gid, msg)
      ensures g.state != 2 ==> HandedOut(old(ClientsVal()), ClientsVal(), g.users, cap, [msg])
    {
      if g.state == 2 {
        return;
      }
      assert MembersOf(TableVal(), g.gid) == g.users;
      FanOutOnce(Val(), g.gid, msg);
      OfferEach(g.users, msg);
    }

    method ListenOnce(g: TGroup)
      requires Valid() && Listened(g) && g.send != []
      modifies clients.Values, g`send
      ensures Valid() && g.send == old(g.send)[1..]
      ensures Val() == if g.state == 2 then old(Val()) else FanOut(old(Val()), g.gid, old(g.send)[0])
    {
      var m := g.send[0];
      g.send := g.send[1..];
      assert Valid() && Val() == old(Val());
      SendToUsers(g, m);
    }

    /** Everything queued is taken, in the order it was queued. */
    method Drain(g: TGroup)
      requires Valid() && Listened(g)
      modifies clients.Values, g`send
      ensures Valid() && g.send == []
      ensures Val() == if g.state == 2 then old(Val()) else FanOutAll(old(Val()), g.gid, old(g.send))
      ensures g.state != 2 ==> HandedOut(old(ClientsVal()), ClientsVal(), g.users, cap, old(g.send))
    {
      ghost var start, msgs, i := Val(), g.send, 0;
      FanOutMeans(start, g.gid, msgs);
      assert g.state != 2 ==> MembersOf(start.table, g.gid) == g.users;
      while g.send != []
        invariant Valid() && 0 <= i <= |msgs| && g.send == msgs[i..]
        invariant Val() == if g.state == 2 then start else FanOutAll(start, g.gid, msgs[..i])
        decreases |g.send|
      {
        ListenOnce(g);
        i := i + 1;
        assert msgs[..i][..i - 1] == msgs[..i - 1];
      }
      assert msgs[..i] == msgs;
    }

    /** TGroup.DeleteTGroup on a group that is deleted already. */
    method TearDownAgain(g: TGroup)
      requires Valid() && g.state == 2
      modifies this`tgroups, g`state, g`closes
      ensures Valid() && Val() == old(Val()) && tgroups == old(tgroups) && g.state == 2 && g.closes == old(g.closes)
    {
      DeleteTGroup(g);
      g.CloseSend();
    }

    /** The listener hands out what is queued and then waits for more, if the channel is open; if it is
        closed it drains it without effect, tears the group down once more and ends. */
    method ListenSendChan(g: TGroup) returns (waits: bool)
      requires Valid() && Listened(g)
      modifies clients.Values, g, this`tgroups
      ensures Valid() && g.send == [] && (waits <==> old(g.closes) == 0)
      ensures Val() == if old(g.state) == 2 then old(Val()) else FanOutAll(old(Val()), g.gid, old(g.send))
      ensures g.state != 2 ==> HandedOut(old(ClientsVal()), ClientsVal(), g.users, cap, old(g.send))
      ensures tgroups == old(tgroups) && g.users == old(g.users) && g.state == old(g.state) && g.closes == old(g.closes)
    {
      Drain(g);
      waits := g.closes == 0;
      if !waits {
        TearDownAgain(g);
      }
    }

    method SendMsgToUser(uid: Uid, msg: Bytes) returns (ok: bool)
      requires Valid()
      modifies clients.Values
      ensures Valid() && Val() == SendToUser(old(Val()), uid, msg)
      ensures ok <==> SendToUserOk(old(Val()), uid)
      ensures ok <==> uid in clients && ClientsVal()[uid].queue == old(ClientsVal())[uid].queue + [msg]
    {
      SendMeans(Val(), uid, msg);
      if uid !in clients {
        return false;
      }
      ok := OfferTo(uid, msg);
    }

    method SendMsgToUserByTgid(uid: Uid, tgid: Gid, msg: Bytes) returns (ok: bool)
      requires Valid()
      modifies clients.Values
      ensures Valid() && Val() == SendToUserByTgid(old(Val()), uid, tgid, msg)
      ensures ok <==> SendToUserByTgidOk(old(Val()), uid, tgid)
    {
      if uid !in clients {
        return false;
      }
      if tgid !in clients[uid].tgroup {
        return true;
      }
      ok := OfferTo(uid, msg);
    }

    method StopClient(uid: Uid)
      requires Valid()
      modifies clients.Values
      ensures Valid() && Val() == Stop(old(Val()), uid)
      ensures uid in clients ==> !clients[uid].online
    {
      if uid in clients {
        clients[uid].Close();
      }
    }
  }
}
