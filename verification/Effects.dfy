/** What the operations of a node do, said of queues and members directly. */
module Effects {
  import opened Types
  import opened NodeSpec

  // ---- queues ------------------------------------------------------------------------------

  function Free(c: ClientVal, cap: nat): nat {
    if |c.queue| <= cap then cap - |c.queue| else 0
  }

  /** Client c' is c after the messages ms have come for it, in this order: an online client has them
      behind what it had, as far as there is room, and is offline if there was not room for all; an
      offline client has none of them. */
  predicate Received(c: ClientVal, c': ClientVal, cap: nat, ms: seq<Bytes>) {
    && c'.groups == c.groups
    && if c.online then
         && c'.queue == c.queue + (if |ms| <= Free(c, cap) then ms else ms[..Free(c, cap)])
         && (c'.online <==> |ms| <= Free(c, cap))
       else c'.queue == c.queue && !c'.online
  }

  lemma ReceivedNothing(c: ClientVal, cap: nat)
    ensures Received(c, c, cap, [])
  {
    assert c.queue + [] == c.queue;
  }

  lemma ReceivedOneMore(c: ClientVal, c': ClientVal, cap: nat, ms: seq<Bytes>, m: Bytes)
    requires Received(c, c', cap, ms)
    ensures Received(c, Offer(c', cap, m), cap, ms + [m])
  {
    var room, all := Free(c, cap), ms + [m];
    if c.online {
      if |all| <= room {
        assert c'.queue + [m] == c.queue + all;
      } else {
        assert all[..room] == if |ms| <= room then ms else ms[..room];
      }
    }
  }

  /** The client and nothing else of the node may differ. */
  ghost predicate OnlyClient(n: NodeVal, n': NodeVal, uid: Uid) {
    && n'.cap == n.cap && n'.clients.Keys == n.clients.Keys
    && forall u :: u in n.clients && u != uid ==> n'.clients[u] == n.clients[u]
  }

  /** A send reaches the named user only, and succeeds exactly when its queue has gained the message. */
  lemma SendMeans(n: NodeVal, uid: Uid, m: Bytes)
    ensures var n' := SendToUser(n, uid, m);
      && OnlyClient(n, n', uid) && n'.table == n.table
      && (uid in n.clients ==> Received(n.clients[uid], n'.clients[uid], n.cap, [m]))
      && (SendToUserOk(n, uid) <==> uid in n.clients && n'.clients[uid].queue == n.clients[uid].queue + [m])
  {
    if uid in n.clients {
      ReceivedNothing(n.clients[uid], n.cap);
      ReceivedOneMore(n.clients[uid], n.clients[uid], n.cap, [], m);
      assert [] + [m] == [m];
      assert |n.clients[uid].queue + [m]| != |n.clients[uid].queue|;
    }
  }

  /** A send on condition of a group: the same if the user is in the group; otherwise nothing happens,
      which is no error if the user is there. */
  lemma SendByTgidMeans(n: NodeVal, uid: Uid, gid: Gid, m: Bytes)
    ensures var n' := SendToUserByTgid(n, uid, gid, m);
      var reached := uid in n.clients && gid in n.clients[uid].groups;
      && OnlyClient(n, n', uid) && n'.table == n.table
      && (uid in n.clients ==> Received(n.clients[uid], n'.clients[uid], n.cap, if reached then [m] else []))
      && (SendToUserByTgidOk(n, uid, gid) <==>
            uid in n.clients && (reached ==> n'.clients[uid].queue == n.clients[uid].queue + [m]))
  {
    SendMeans(n, uid, m);
    if uid in n.clients { ReceivedNothing(n.clients[uid], n.cap); }
  }

  /** The payloads of the messages that do not exclude the user, in order. */
  function PayloadsFor(u: Uid, msgs: seq<GroupMsg>): seq<Bytes> {
    if msgs == [] then []
    else
      var last := msgs[|msgs| - 1];
      PayloadsFor(u, msgs[..|msgs| - 1]) + if last.exceptUid == u then [] else [last.msg]
  }

  /** Every member has received those of the messages that do not exclude it, and nobody else any. */
  ghost predicate HandedOut(
    before: map<Uid, ClientVal>, after: map<Uid, ClientVal>, members: set<Uid>, cap: nat, msgs: seq<GroupMsg>)
  {
    && after.Keys == before.Keys
    && forall u :: u in before ==> Received(before[u], after[u], cap, if u in members then PayloadsFor(u, msgs) else [])
  }

  /** Group messages handed out one after the other: every member gets those that do not exclude it, in
      that order, and nobody else gets any. */
  lemma {:induction false} FanOutMeans(n: NodeVal, gid: Gid, msgs: seq<GroupMsg>)
    ensures var n' := FanOutAll(n, gid, msgs);
      && n'.cap == n.cap && n'.table == n.table
      && HandedOut(n.clients, n'.clients, MembersOf(n.table, gid), n.cap, msgs)
    decreases |msgs|
  {
    if msgs == [] {
      forall u | u in n.clients ensures Received(n.clients[u], n.clients[u], n.cap, []) {
        ReceivedNothing(n.clients[u], n.cap);
      }
    } else {
      var init, last := msgs[..|msgs| - 1], msgs[|msgs| - 1];
      FanOutMeans(n, gid, init);
      var n1, n' := FanOutAll(n, gid, init), FanOutAll(n, gid, msgs);
      forall u | u in n.clients
        ensures Received(n.clients[u], n'.clients[u], n.cap,
          if u in MembersOf(n.table, gid) then PayloadsFor(u, msgs) else [])
      {
        FanOutOneMore(n.clients[u], n1.clients[u], n.cap, u, msgs);
      }
    }
  }

  lemma FanOutOneMore(c: ClientVal, c1: ClientVal, cap: nat, u: Uid, msgs: seq<GroupMsg>)
    requires msgs != []
    ensures Received(c, c1, cap, PayloadsFor(u, msgs[..|msgs| - 1])) ==>
      var last := msgs[|msgs| - 1];
      Received(c, if last.exceptUid == u then c1 else Offer(c1, cap, last.msg), cap, PayloadsFor(u, msgs))
  {
    var init, last := PayloadsFor(u, msgs[..|msgs| - 1]), msgs[|msgs| - 1];
    if Received(c, c1, cap, init) {
      if last.exceptUid == u {
        assert init + [] == init;
      } else {
        ReceivedOneMore(c, c1, cap, init, last.msg);
      }
    }
  }

  /** One group message. */
  lemma FanOutOnce(n: NodeVal, gid: Gid, m: GroupMsg)
    ensures var n' := FanOut(n, gid, m);
      && n'.cap == n.cap && n'.table == n.table
      && HandedOut(n.clients, n'.clients, MembersOf(n.table, gid), n.cap, [m])
    ensures forall u :: PayloadsFor(u, [m]) == if u == m.exceptUid then [] else [m.msg]
  {
    assert [m][..0] == [];
    assert FanOutAll(n, gid, [m]) == FanOut(FanOutAll(n, gid, [m][..0]), gid, m);
    FanOutMeans(n, gid, [m]);
  }

  // ---- members -----------------------------------------------------------------------------

  /** Nothing but the groups of the client may differ. */
  predicate OnlyGroups(c: ClientVal, c': ClientVal) {
    c'.online == c.online && c'.queue == c.queue
  }

  /** Joining makes the user a member of that group, in the table and in its own set, and nothing else. */
  lemma JoinMeans(n: NodeVal, uid: Uid, gid: Gid)
    requires uid in n.clients
    ensures var n' := Join(n, uid, gid);
      && OnlyClient(n, n', uid) && OnlyGroups(n.clients[uid], n'.clients[uid])
      && n'.clients[uid].groups == n.clients[uid].groups + {gid}
      && (forall u, k :: u in MembersOf(n'.table, k) <==> u in MembersOf(n.table, k) || (u == uid && k == gid))
  {
    MembersAfter(n.table, gid, uid);
  }

  lemma OutMeans(n: NodeVal, uid: Uid, gid: Gid)
    requires uid in n.clients
    ensures var n' := Out(n, uid, gid);
      && OnlyClient(n, n', uid) && OnlyGroups(n.clients[uid], n'.clients[uid])
      && n'.clients[uid].groups == n.clients[uid].groups - {gid}
      && (forall u, k :: u in MembersOf(n'.table, k) <==> u in MembersOf(n.table, k) && !(u == uid && k == gid))
  {
    MembersAfter(n.table, gid, uid);
  }

  /** After a stop the user is offline, and that is all. */
  lemma StopMeans(n: NodeVal, uid: Uid)
    ensures var n' := Stop(n, uid);
      && OnlyClient(n, n', uid) && n'.table == n.table
      && (uid in n.clients ==>
            !n'.clients[uid].online && n'.clients[uid].queue == n.clients[uid].queue &&
            n'.clients[uid].groups == n.clients[uid].groups)
  {
  }

  /** After a teardown the user is not connected and a member nowhere; everybody else is as before. */
  lemma TeardownMeans(n: NodeVal, uid: Uid)
    requires Coherent(n) && uid in n.clients
    ensures var n' := Teardown(n, uid);
      && n'.cap == n.cap && n'.clients.Keys == n.clients.Keys - {uid}
      && (forall u :: u in n'.clients ==> n'.clients[u] == n.clients[u])
      && (forall u, k :: u in MembersOf(n'.table, k) <==> u in MembersOf(n.table, k) && u != uid)
  {
    TeardownIsComplete(n, uid);
  }

  /** An operation on a user that is not connected does nothing. */
  lemma AbsentMeans(n: NodeVal, uid: Uid, gid: Gid, m: Bytes)
    requires uid !in n.clients
    ensures SendToUser(n, uid, m) == n && SendToUserByTgid(n, uid, gid, m) == n && Stop(n, uid) == n
    ensures Join(n, uid, gid) == n && Out(n, uid, gid) == n
    ensures !SendToUserOk(n, uid) && !SendToUserByTgidOk(n, uid, gid)
  {
  }
}
