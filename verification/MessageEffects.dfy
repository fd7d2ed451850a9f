/** What a published message does on a node, said of its fields and of the clients' queues. */
module MessageEffects {
  import opened Types
  import opened NodeSpec
  import opened Effects
  import opened Broadcast
  import opened UserMessages

  /** The groups named: the one, or else those of the list. */
  function Named(sub: SubMsg): seq<Gid> {
    if sub.tgid != "" then [sub.tgid] else sub.tgidList
  }

  /** How often one of the groups stands in the list; an empty gid is no group. */
  function Occurrences(gids: seq<Gid>, groups: set<Gid>): nat {
    |set i | 0 <= i < |gids| && gids[i] != "" && gids[i] in groups|
  }

  /** The data under its module and control names, as far as there are any. */
  function Body(sub: SubMsg): AData {
    if sub.mol == "" then sub.data
    else Obj(sub.mol, if sub.ctrl == "" then sub.data else Obj(sub.ctrl, sub.data))
  }

  function Copies(m: Bytes, k: nat): seq<Bytes> {
    seq(k, _ => m)
  }

  // ---- counting ----------------------------------------------------------------------------

  lemma OneMoreGid(gids: seq<Gid>, groups: set<Gid>)
    requires gids != []
    ensures var gid := gids[|gids| - 1];
      Occurrences(gids, groups) == Occurrences(gids[..|gids| - 1], groups) + if gid != "" && gid in groups then 1 else 0
  {
    var init, last := gids[..|gids| - 1], |gids| - 1;
    var a := set i | 0 <= i < |init| && init[i] != "" && init[i] in groups;
    var b := set i | 0 <= i < |gids| && gids[i] != "" && gids[i] in groups;
    assert forall i :: 0 <= i < last ==> init[i] == gids[i];
    assert b == if gids[last] != "" && gids[last] in groups then a + {last} else a;
  }

  lemma {:induction false} NonEmptyOccur(gids: seq<Gid>, groups: set<Gid>)
    ensures Occurrences(NonEmpty(gids), groups) == Occurrences(gids, groups)
    decreases |gids|
  {
    if gids != [] {
      var init, gid := gids[..|gids| - 1], gids[|gids| - 1];
      NonEmptyOccur(init, groups);
      OneMoreGid(gids, groups);
      if gid != "" {
        assert (NonEmpty(init) + [gid])[..|NonEmpty(init)|] == NonEmpty(init);
        OneMoreGid(NonEmpty(init) + [gid], groups);
      }
    }
  }

  lemma TargetsOccur(sub: SubMsg, groups: set<Gid>)
    ensures Occurrences(Targets(sub), groups) == Occurrences(Named(sub), groups)
  {
    if sub.tgid == "" { NonEmptyOccur(sub.tgidList, groups); }
  }

  /** Calls for one user of each of the groups: as many reach it as it is in groups. */
  lemma {:induction false} GroupCallsReach(
    calls: seq<ProxyCall>, gids: seq<Gid>, uid: Uid, rd: ResponseData, groups: set<Gid>)
    requires |calls| == |gids| && "" !in gids
    requires forall i :: 0 <= i < |gids| ==> calls[i] == ToGroupUser(uid, gids[i], rd)
    ensures Addressed(groups, calls) == Occurrences(gids, groups)
    decreases |gids|
  {
    if gids != [] {
      assert gids[|gids| - 1] in gids;
      GroupCallsReach(calls[..|calls| - 1], gids[..|gids| - 1], uid, rd, groups);
      OneMoreGid(gids, groups);
    }
  }

  // ---- a message that names a user ---------------------------------------------------------

  /** One copy for each occurrence of a group the user is in; one if no group is named. */
  function CopiesFor(sub: SubMsg, groups: set<Gid>): nat {
    if Named(sub) == [] then 1 else Occurrences(Named(sub), groups)
  }

  lemma CallsReach(sub: SubMsg, groups: set<Gid>)
    requires sub.toUid != ""
    ensures Addressed(groups, CallsFor(sub)) == CopiesFor(sub, groups)
  {
    var calls := CallsFor(sub);
    if Named(sub) == [] {
      assert |calls| == 1 && calls[..0] == [] && Addressed(groups, calls[..0]) == 0;
    } else {
      assert "" !in Targets(sub);
      GroupCallsReach(calls, Targets(sub), sub.toUid, SubData(sub), groups);
      TargetsOccur(sub, groups);
    }
  }

  lemma {:induction false} OffersReceived(c: ClientVal, cap: nat, m: Bytes, k: nat)
    ensures Received(c, Offers(c, cap, m, k), cap, Copies(m, k))
    decreases k
  {
    if k == 0 {
      ReceivedNothing(c, cap);
      assert Copies(m, 0) == [];
    } else {
      OffersReceived(c, cap, m, k - 1);
      ReceivedOneMore(c, Offers(c, cap, m, k - 1), cap, Copies(m, k - 1), m);
      assert Copies(m, k) == Copies(m, k - 1) + [m];
    }
  }

  /** On one node, a message that names a user brings that user, if it is there, one copy for each
      occurrence of a group it is in, or one if the message names no group; and nobody else anything. */
  lemma UserMessageMeans(n: NodeVal, enc: Encoder, sub: SubMsg)
    requires sub.toUid != ""
    ensures var n' := OnNodeAll(n, enc, CallsFor(sub));
      && OnlyClient(n, n', sub.toUid) && n'.table == n.table
      && (sub.toUid in n.clients ==>
            var c := n.clients[sub.toUid];
            Received(c, n'.clients[sub.toUid], n.cap,
              Copies(enc(Response("", "", 3, ResponseData(1, Body(sub)))), CopiesFor(sub, c.groups))))
  {
    CallsAreForUser(sub);
    NodeAfterCalls(n, enc, CallsFor(sub), sub.toUid, SubData(sub));
    if sub.toUid in n.clients {
      var c := n.clients[sub.toUid];
      CallsReach(sub, c.groups);
      OffersReceived(c, n.cap, UserPayload(enc, SubData(sub)), CopiesFor(sub, c.groups));
    }
  }

  // ---- a message that names none -----------------------------------------------------------

  /** The groups the user is a member of. */
  function GroupsOf(m: Table, u: Uid): set<Gid> {
    set k | k in m && u in m[k]
  }

  /** A member gets one copy for each occurrence of a group it is in, unless it is excluded. */
  function CopiesToMember(n: NodeVal, gids: seq<Gid>, u: Uid, ex: Uid): nat {
    if u == ex then 0 else Occurrences(gids, GroupsOf(n.table, u))
  }

  ghost predicate EachGets(n: NodeVal, n': NodeVal, gids: seq<Gid>, m: Bytes, ex: Uid) {
    && n'.cap == n.cap && n'.table == n.table && n'.clients.Keys == n.clients.Keys
    && forall u :: u in n.clients ==>
         Received(n.clients[u], n'.clients[u], n.cap, Copies(m, CopiesToMember(n, gids, u, ex)))
  }

  lemma OneGroupMore(n: NodeVal, n1: NodeVal, gids: seq<Gid>, m: GroupMsg, u: Uid)
    requires gids != [] && gids[|gids| - 1] != "" && n1.cap == n.cap && n1.table == n.table
    requires u in n.clients && u in n1.clients
    requires Received(n.clients[u], n1.clients[u], n.cap,
      Copies(m.msg, CopiesToMember(n, gids[..|gids| - 1], u, m.exceptUid)))
    ensures Received(n.clients[u], FanOut(n1, gids[|gids| - 1], m).clients[u], n.cap,
      Copies(m.msg, CopiesToMember(n, gids, u, m.exceptUid)))
  {
    var init, gid := gids[..|gids| - 1], gids[|gids| - 1];
    var k := CopiesToMember(n, init, u, m.exceptUid);
    OneMoreGid(gids, GroupsOf(n.table, u));
    if u != m.exceptUid && u in MembersOf(n.table, gid) {
      ReceivedOneMore(n.clients[u], n1.clients[u], n.cap, Copies(m.msg, k), m.msg);
      assert Copies(m.msg, k + 1) == Copies(m.msg, k) + [m.msg];
    }
  }

  lemma {:induction false} SendListMeans(n: NodeVal, enc: Encoder, gids: seq<Gid>, rd: ResponseData, ex: Uid)
    requires "" !in gids
    ensures EachGets(n, LocalSendList(n, enc, gids, rd, ex), gids, enc(Response("", "", 2, rd)), ex)
    decreases |gids|
  {
    var m := GroupPayload(enc, rd, ex);
    if gids == [] {
      forall u | u in n.clients ensures Received(n.clients[u], n.clients[u], n.cap, Copies(m.msg, 0)) {
        ReceivedNothing(n.clients[u], n.cap);
        assert Copies(m.msg, 0) == [];
      }
    } else {
      var init := gids[..|gids| - 1];
      assert gids[|gids| - 1] in gids;
      SendListMeans(n, enc, init, rd, ex);
      var n1 := LocalSendList(n, enc, init, rd, ex);
      forall u | u in n.clients
        ensures Received(n.clients[u], LocalSendList(n, enc, gids, rd, ex).clients[u], n.cap,
          Copies(m.msg, CopiesToMember(n, gids, u, ex)))
      {
        OneGroupMore(n, n1, gids, m, u);
      }
    }
  }

  /** On one node, a message that names no user brings each member one copy for each occurrence of a
      group it is in, unless it is the excluded one; and nobody else anything. */
  lemma GroupMessageMeans(n: NodeVal, enc: Encoder, sub: SubMsg)
    ensures EachGets(n, HandleLocal(n, enc, sub), Named(sub),
      enc(Response("", "", 2, ResponseData(1, Body(sub)))), sub.exceptUid)
  {
    assert "" !in Targets(sub);
    SendListMeans(n, enc, Targets(sub), SubData(sub), sub.exceptUid);
    forall u | u in n.clients
      ensures CopiesToMember(n, Targets(sub), u, sub.exceptUid) == CopiesToMember(n, Named(sub), u, sub.exceptUid)
    {
      TargetsOccur(sub, GroupsOf(n.table, u));
    }
  }

  /** What the local proxy sends to a group: the data and status given, to each member but the excluded. */
  lemma LocalSendMeans(n: NodeVal, enc: Encoder, gid: Gid, rd: ResponseData, ex: Uid)
    ensures var n' := LocalSend(n, enc, gid, rd, ex);
      && n'.cap == n.cap && n'.table == n.table && n'.clients.Keys == n.clients.Keys
      && forall u :: u in n.clients ==>
           Received(n.clients[u], n'.clients[u], n.cap,
             if u in MembersOf(n.table, gid) && u != ex then [enc(Response("", "", 2, rd))] else [])
  {
    FanOutOnce(n, gid, GroupPayload(enc, rd, ex));
  }
}
