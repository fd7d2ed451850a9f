/** Group messages across the cluster: published once, handled on every node. */
module Broadcast {
  import opened Types
  import opened NodeSpec
  import opened Cluster

  /** JSON data, kept as a value: only how the code wraps it matters. */
  datatype AData = Raw(text: string) | Obj(key: string, inner: AData)

  datatype ResponseData = ResponseData(s: int, a: AData)

  datatype Response = Response(seqId: string, cmd: string, msgType: int, rdata: ResponseData)

  const MSG_TYPE_GROUP := 2
  const MSG_TYPE_U2U := 3

  datatype SubMsg = SubMsg(
    tgid: Gid, tgidList: seq<Gid>, mol: string, ctrl: string, data: AData, exceptUid: Uid, toUid: Uid)

  type Encoder = Response -> Bytes

  function NewResponseData(a: AData): ResponseData {
    ResponseData(1, a)
  }

  function GroupPayload(enc: Encoder, rd: ResponseData, exceptUid: Uid): GroupMsg {
    GroupMsg(exceptUid, enc(Response("", "", MSG_TYPE_GROUP, rd)))
  }

  function UserPayload(enc: Encoder, rd: ResponseData): Bytes {
    enc(Response("", "", MSG_TYPE_U2U, rd))
  }

  /** LocalProxy.SendResDataToGroup, up to the fan-out of the message by the group's listener. */
  function LocalSend(n: NodeVal, enc: Encoder, gid: Gid, rd: ResponseData, exceptUid: Uid): NodeVal {
    FanOut(n, gid, GroupPayload(enc, rd, exceptUid))
  }

  // ---- handleSubMsg on one node ------------------------------------------------------------

  function SubData(sub: SubMsg): ResponseData {
    if sub.mol == "" then NewResponseData(sub.data)
    else if sub.ctrl == "" then NewResponseData(Obj(sub.mol, sub.data))
    else NewResponseData(Obj(sub.mol, Obj(sub.ctrl, sub.data)))
  }

  /** What handleSubMsg asks of the node's proxy. */
  datatype ProxyCall =
    | ToLocalGroup(gid: Gid, rd: ResponseData, exceptUid: Uid)
    | ToGroupUser(uid: Uid, gid: Gid, rd: ResponseData)
    | ToUser(uid: Uid, rd: ResponseData)

  /** The gids of the list that are not empty, in order. */
  function NonEmpty(gids: seq<Gid>): (r: seq<Gid>)
    ensures "" !in r && (forall gid :: gid in r ==> gid in gids)
    ensures forall gid :: gid in gids && gid != "" ==> gid in r
  {
    if gids == [] then []
    else
      var init, gid := gids[..|gids| - 1], gids[|gids| - 1];
      if gid == "" then NonEmpty(init) else NonEmpty(init) + [gid]
  }

  /** The groups a message is for. */
  function Targets(sub: SubMsg): seq<Gid> {
    if sub.tgid != "" then [sub.tgid] else NonEmpty(sub.tgidList)
  }

  /** A message for a group is for the whole local group, or for one user of the group if it names one. */
  function CallFor(sub: SubMsg, gid: Gid): ProxyCall {
    if sub.toUid == "" then ToLocalGroup(gid, SubData(sub), sub.exceptUid)
    else ToGroupUser(sub.toUid, gid, SubData(sub))
  }

  /** A user named without any group gets the message directly. */
  function CallsFor(sub: SubMsg): seq<ProxyCall> {
    if sub.tgid == "" && sub.tgidList == [] && sub.toUid != "" then [ToUser(sub.toUid, SubData(sub))]
    else seq(|Targets(sub)|, i requires 0 <= i < |Targets(sub)| => CallFor(sub, Targets(sub)[i]))
  }

  method HandleSubMsg(sub: SubMsg) returns (calls: seq<ProxyCall>)
    ensures calls == CallsFor(sub)
  {
    calls := [];
    if sub.tgid != "" {
      calls := [CallFor(sub, sub.tgid)];
    } else if |sub.tgidList| > 0 {
      for i := 0 to |sub.tgidList|
        invariant |calls| == |NonEmpty(sub.tgidList[..i])|
        invariant forall j :: 0 <= j < |calls| ==> calls[j] == CallFor(sub, NonEmpty(sub.tgidList[..i])[j])
      {
        assert sub.tgidList[..i + 1][..i] == sub.tgidList[..i];
        if sub.tgidList[i] != "" {
          calls := calls + [CallFor(sub, sub.tgidList[i])];
        }
      }
      assert sub.tgidList[..|sub.tgidList|] == sub.tgidList;
    } else if sub.toUid != "" {
      calls := [ToUser(sub.toUid, SubData(sub))];
    }
  }

  /** One such call, made on node `at`: to the local group, or routed to the user. */
  ghost function Do(c: ClusterState, at: NodeId, enc: Encoder, call: ProxyCall): (r: ClusterState)
    requires at in c.nodes
    ensures r.nodes.Keys == c.nodes.Keys
  {
    match call
    case ToLocalGroup(gid, rd, ex) => SetNode(c, at, LocalSend(c.nodes[at], enc, gid, rd, ex))
    case ToGroupUser(uid, gid, rd) => Route(c, at, SendMsgByTgid(uid, gid, UserPayload(enc, rd))).0
    case ToUser(uid, rd) => Route(c, at, SendMsg(uid, UserPayload(enc, rd))).0
  }

  ghost function DoAll(c: ClusterState, at: NodeId, enc: Encoder, calls: seq<ProxyCall>): (r: ClusterState)
    requires at in c.nodes
    ensures r.nodes.Keys == c.nodes.Keys
    decreases |calls|
  {
    if calls == [] then c else Do(DoAll(c, at, enc, calls[..|calls| - 1]), at, enc, calls[|calls| - 1])
  }

  /** A message handled on node `at`. */
  ghost function Handle(c: ClusterState, at: NodeId, enc: Encoder, sub: SubMsg): (r: ClusterState)
    requires at in c.nodes
    ensures r.nodes.Keys == c.nodes.Keys
  {
    DoAll(c, at, enc, CallsFor(sub))
  }

  /** The message to each of the groups. */
  function LocalSendList(n: NodeVal, enc: Encoder, gids: seq<Gid>, rd: ResponseData, exceptUid: Uid): NodeVal {
    if gids == [] then n
    else LocalSend(LocalSendList(n, enc, gids[..|gids| - 1], rd, exceptUid), enc, gids[|gids| - 1], rd, exceptUid)
  }

  /** A message that names no user, on one node. */
  function HandleLocal(n: NodeVal, enc: Encoder, sub: SubMsg): NodeVal {
    LocalSendList(n, enc, Targets(sub), SubData(sub), sub.exceptUid)
  }

  lemma {:induction false} DoAllLocal(
    c: ClusterState, at: NodeId, enc: Encoder, gids: seq<Gid>, calls: seq<ProxyCall>, rd: ResponseData, ex: Uid)
    requires at in c.nodes && |calls| == |gids|
    requires forall i :: 0 <= i < |gids| ==> calls[i] == ToLocalGroup(gids[i], rd, ex)
    ensures DoAll(c, at, enc, calls) == SetNode(c, at, LocalSendList(c.nodes[at], enc, gids, rd, ex))
    decreases |gids|
  {
    if gids == [] {
      assert c.nodes[at := c.nodes[at]] == c.nodes;
    } else {
      DoAllLocal(c, at, enc, gids[..|gids| - 1], calls[..|calls| - 1], rd, ex);
    }
  }

  /** Unless it names a user, a handled message changes the handling node only. */
  lemma HandleIsLocal(c: ClusterState, at: NodeId, enc: Encoder, sub: SubMsg)
    requires at in c.nodes && sub.toUid == ""
    ensures Handle(c, at, enc, sub) == SetNode(c, at, HandleLocal(c.nodes[at], enc, sub))
  {
    DoAllLocal(c, at, enc, Targets(sub), CallsFor(sub), SubData(sub), sub.exceptUid);
  }

  // ---- publish, then handle on every node --------------------------------------------------

  /** RedisProxy.SendResDataToGroup: only the data is published, not the status. */
  function Published(gid: Gid, rd: ResponseData, exceptUid: Uid): SubMsg {
    SubMsg(gid, [], "", "", rd.a, exceptUid, "")
  }

  /** The nodes of `order` handle the message, one after the other. */
  ghost function HandleAll(c: ClusterState, order: seq<NodeId>, enc: Encoder, sub: SubMsg): ClusterState
    requires forall n :: n in order ==> n in c.nodes
    decreases |order|
  {
    if order == [] then c else HandleAll(Handle(c, order[0], enc, sub), order[1..], enc, sub)
  }

  /** Each node handles the message once, in whatever order. */
  ghost predicate EachOnce(c: ClusterState, order: seq<NodeId>) {
    && (forall n :: n in order <==> n in c.nodes)
    && (forall i, j :: 0 <= i < j < |order| ==> order[i] != order[j])
  }

  ghost function OnEach(c: ClusterState, who: seq<NodeId>, enc: Encoder, sub: SubMsg): ClusterState {
    c.(nodes := map n | n in c.nodes :: if n in who then HandleLocal(c.nodes[n], enc, sub) else c.nodes[n])
  }

  lemma OneMoreNode(c: ClusterState, at: NodeId, others: seq<NodeId>, enc: Encoder, sub: SubMsg)
    requires at in c.nodes && at !in others
    ensures OnEach(SetNode(c, at, HandleLocal(c.nodes[at], enc, sub)), others, enc, sub) ==
      OnEach(c, [at] + others, enc, sub)
  {
    var c1 := SetNode(c, at, HandleLocal(c.nodes[at], enc, sub));
    assert OnEach(c1, others, enc, sub).nodes == OnEach(c, [at] + others, enc, sub).nodes;
  }

  lemma {:induction false} HandledOnEach(c: ClusterState, order: seq<NodeId>, enc: Encoder, sub: SubMsg)
    requires forall n :: n in order ==> n in c.nodes
    requires forall i, j :: 0 <= i < j < |order| ==> order[i] != order[j]
    requires sub.toUid == ""
    ensures HandleAll(c, order, enc, sub) == OnEach(c, order, enc, sub)
    decreases |order|
  {
    if order == [] {
      assert OnEach(c, order, enc, sub).nodes == c.nodes;
    } else {
      var at, others := order[0], order[1..];
      HandleIsLocal(c, at, enc, sub);
      HandledOnEach(Handle(c, at, enc, sub), others, enc, sub);
      OneMoreNode(c, at, others, enc, sub);
      assert order == [at] + others;
    }
  }

  /** Cluster c' is cluster c after every node has fanned m out to its part of the group. */
  ghost predicate AllFanOut(c: ClusterState, c': ClusterState, gid: Gid, m: GroupMsg) {
    c'.nodes.Keys == c.nodes.Keys && forall n :: n in c.nodes ==> c'.nodes[n] == FanOut(c.nodes[n], gid, m)
  }

  lemma FanOutMergesClient(c: ClusterState, c': ClusterState, cap: nat, gid: Gid, m: GroupMsg, u: Uid)
    requires WellFormed(c, cap) && AllFanOut(c, c', gid, m) && u in Users(c)
    requires u in Users(c') && HostOf(c', u) == HostOf(c, u)
    ensures Merge(c', cap).clients[u] == FanOut(Merge(c, cap), gid, m).clients[u]
  {
    MembersAreHosted(c, cap, u, gid);
    MergedMembers(c, cap, gid);
  }

  lemma FanOutKeepsHosts(c: ClusterState, c': ClusterState, cap: nat, gid: Gid, m: GroupMsg)
    requires WellFormed(c, cap) && AllFanOut(c, c', gid, m)
    ensures WellFormed(c', cap) && Users(c') == Users(c)
    ensures forall u :: u in Users(c) ==> HostOf(c', u) == HostOf(c, u)
  {
    forall n | n in c.nodes
      ensures Coherent(c'.nodes[n]) && c'.nodes[n].cap == cap && c'.nodes[n].clients.Keys == c.nodes[n].clients.Keys {
      SendsKeepCoherent(c.nodes[n], "", gid, [], m);
    }
    SameHosts(c, c');
  }

  ghost predicate SameAt(c: ClusterState, c': ClusterState, cap: nat, gid: Gid, m: GroupMsg, u: Uid)
    requires Users(c') == Users(c) && u in Users(c)
  {
    Merge(c', cap).clients[u] == FanOut(Merge(c, cap), gid, m).clients[u]
  }

  lemma FanOutMergesEach(c: ClusterState, c': ClusterState, cap: nat, gid: Gid, m: GroupMsg)
    requires WellFormed(c, cap) && AllFanOut(c, c', gid, m) && Users(c') == Users(c)
    requires forall u :: u in Users(c) ==> HostOf(c', u) == HostOf(c, u)
    ensures forall u :: u in Users(c) ==> SameAt(c, c', cap, gid, m, u)
  {
    forall u | u in Users(c) ensures SameAt(c, c', cap, gid, m, u) {
      FanOutMergesClient(c, c', cap, gid, m, u);
    }
  }

  lemma FanOutMergesClients(c: ClusterState, c': ClusterState, cap: nat, gid: Gid, m: GroupMsg)
    requires Users(c') == Users(c) && forall u :: u in Users(c) ==> SameAt(c, c', cap, gid, m, u)
    ensures Merge(c', cap).clients == FanOut(Merge(c, cap), gid, m).clients
  {
  }

  /** All nodes fanning a message out is the big node fanning it out. */
  lemma MergeFanOut(c: ClusterState, c': ClusterState, cap: nat, gid: Gid, m: GroupMsg)
    requires WellFormed(c, cap) && AllFanOut(c, c', gid, m)
    ensures Merge(c', cap) == FanOut(Merge(c, cap), gid, m)
    ensures WellFormed(c', cap)
  {
    FanOutKeepsHosts(c, c', cap, gid, m);
    TablesStay(c, c', cap);
    FanOutMergesEach(c, c', cap, gid, m);
    FanOutMergesClients(c, c', cap, gid, m);
  }

  ghost function Listed(c: ClusterState, enc: Encoder, gids: seq<Gid>, rd: ResponseData, exceptUid: Uid): ClusterState {
    c.(nodes := map n | n in c.nodes :: LocalSendList(c.nodes[n], enc, gids, rd, exceptUid))
  }

  lemma {:induction false} MergeSendList(
    c: ClusterState, cap: nat, enc: Encoder, gids: seq<Gid>, rd: ResponseData, exceptUid: Uid)
    requires WellFormed(c, cap)
    ensures Merge(Listed(c, enc, gids, rd, exceptUid), cap) == LocalSendList(Merge(c, cap), enc, gids, rd, exceptUid)
    ensures WellFormed(Listed(c, enc, gids, rd, exceptUid), cap)
    decreases |gids|
  {
    if gids == [] {
      assert Listed(c, enc, gids, rd, exceptUid).nodes == c.nodes;
    } else {
      var init, gid := gids[..|gids| - 1], gids[|gids| - 1];
      var c1, c2 := Listed(c, enc, init, rd, exceptUid), Listed(c, enc, gids, rd, exceptUid);
      MergeSendList(c, cap, enc, init, rd, exceptUid);
      MergeFanOut(c1, c2, cap, gid, GroupPayload(enc, rd, exceptUid));
    }
  }

  /** A message to groups, handled once on every node in any order, is the same message handled once
      on the one big node. */
  lemma HandleRefinesLocal(c: ClusterState, cap: nat, order: seq<NodeId>, enc: Encoder, sub: SubMsg)
    requires WellFormed(c, cap) && EachOnce(c, order) && sub.toUid == ""
    ensures Merge(HandleAll(c, order, enc, sub), cap) == HandleLocal(Merge(c, cap), enc, sub)
    ensures WellFormed(HandleAll(c, order, enc, sub), cap)
  {
    HandledOnEach(c, order, enc, sub);
    var c' := OnEach(c, order, enc, sub);
    assert c'.nodes == Listed(c, enc, Targets(sub), SubData(sub), sub.exceptUid).nodes;
    MergeSendList(c, cap, enc, Targets(sub), SubData(sub), sub.exceptUid);
  }

  lemma OneTarget(n: NodeVal, enc: Encoder, gid: Gid, rd: ResponseData, exceptUid: Uid)
    ensures HandleLocal(n, enc, Published(gid, rd, exceptUid)) ==
      if gid == "" then n else LocalSend(n, enc, gid, NewResponseData(rd.a), exceptUid)
  {
    if gid != "" {
      assert [gid][..0] == [];
      assert LocalSendList(n, enc, [][..], NewResponseData(rd.a), exceptUid) == n;
    }
  }

  /** Broadcast refines a single node: for a non-empty gid and status 1, publishing and handling on
      every node hands the same payload to exactly the members, on any node, that the local proxy of
      the one big node would reach. */
  lemma BroadcastRefinesLocal(
    c: ClusterState, cap: nat, order: seq<NodeId>, enc: Encoder, gid: Gid, rd: ResponseData, exceptUid: Uid)
    requires WellFormed(c, cap) && EachOnce(c, order) && gid != "" && rd.s == 1
    ensures Merge(HandleAll(c, order, enc, Published(gid, rd, exceptUid)), cap) ==
      LocalSend(Merge(c, cap), enc, gid, rd, exceptUid)
  {
    HandleRefinesLocal(c, cap, order, enc, Published(gid, rd, exceptUid));
    OneTarget(Merge(c, cap), enc, gid, rd, exceptUid);
  }

  // ---- exactly when it does ----------------------------------------------------------------

  ghost predicate Injective(enc: Encoder) {
    forall a, b :: enc(a) == enc(b) ==> a == b
  }

  /** Those the local proxy would offer the message to. */
  function Recipients(n: NodeVal, gid: Gid, exceptUid: Uid): set<Uid> {
    set u | u in n.clients && u in MembersOf(n.table, gid) && u != exceptUid
  }

  lemma FanOutDiffers(n: NodeVal, gid: Gid, a: GroupMsg, b: GroupMsg)
    requires a.exceptUid == b.exceptUid && a.msg != b.msg
    ensures FanOut(n, gid, a) == FanOut(n, gid, b) <==>
      forall u :: u in Recipients(n, gid, a.exceptUid) ==> !Accepts(n.clients[u], n.cap)
  {
    if exists u :: u in Recipients(n, gid, a.exceptUid) && Accepts(n.clients[u], n.cap) {
      var u :| u in Recipients(n, gid, a.exceptUid) && Accepts(n.clients[u], n.cap);
      var q := n.clients[u].queue;
      assert (q + [a.msg])[|q|] != (q + [b.msg])[|q|];
      assert FanOut(n, gid, a).clients[u] != FanOut(n, gid, b).clients[u];
    } else {
      assert FanOut(n, gid, a).clients == FanOut(n, gid, b).clients;
    }
  }

  lemma FanOutIsVisible(n: NodeVal, gid: Gid, m: GroupMsg)
    ensures FanOut(n, gid, m) == n <==> forall u :: u in Recipients(n, gid, m.exceptUid) ==> !n.clients[u].online
  {
  }

  /** The status is lost and an empty gid reaches no group, so the refinement holds exactly when
      neither matters: the gid is not empty and the status is 1, or nobody would have accepted. */
  lemma BroadcastExactly(
    c: ClusterState, cap: nat, order: seq<NodeId>, enc: Encoder, gid: Gid, rd: ResponseData, exceptUid: Uid)
    requires WellFormed(c, cap) && EachOnce(c, order) && Injective(enc)
    ensures Merge(HandleAll(c, order, enc, Published(gid, rd, exceptUid)), cap) ==
      LocalSend(Merge(c, cap), enc, gid, rd, exceptUid)
      <==> var m := Merge(c, cap);
           if gid == "" then forall u :: u in Recipients(m, gid, exceptUid) ==> !m.clients[u].online
           else rd.s == 1 || forall u :: u in Recipients(m, gid, exceptUid) ==> !Accepts(m.clients[u], cap)
  {
    var sub, m := Published(gid, rd, exceptUid), Merge(c, cap);
    HandleRefinesLocal(c, cap, order, enc, sub);
    OneTarget(m, enc, gid, rd, exceptUid);
    if gid == "" {
      FanOutIsVisible(m, gid, GroupPayload(enc, rd, exceptUid));
    } else {
      if rd.s != 1 {
        assert Response("", "", MSG_TYPE_GROUP, SubData(sub)) != Response("", "", MSG_TYPE_GROUP, rd);
        FanOutDiffers(m, gid, GroupPayload(enc, SubData(sub), exceptUid), GroupPayload(enc, rd, exceptUid));
      }
    }
  }

  // ---- messages that name a user, handled everywhere ---------------------------------------

  /** One call of handleSubMsg on a single node with the local proxy. */
  function OnNode(n: NodeVal, enc: Encoder, call: ProxyCall): NodeVal {
    match call
    case ToLocalGroup(gid, rd, ex) => LocalSend(n, enc, gid, rd, ex)
    case ToGroupUser(uid, gid, rd) => SendToUserByTgid(n, uid, gid, UserPayload(enc, rd))
    case ToUser(uid, rd) => SendToUser(n, uid, UserPayload(enc, rd))
  }

  function OnNodeAll(n: NodeVal, enc: Encoder, calls: seq<ProxyCall>): NodeVal {
    if calls == [] then n else OnNode(OnNodeAll(n, enc, calls[..|calls| - 1]), enc, calls[|calls| - 1])
  }

  /** The calls, made k times over. */
  function Times(n: NodeVal, enc: Encoder, calls: seq<ProxyCall>, k: nat): NodeVal
    decreases k
  {
    if k == 0 then n else OnNodeAll(Times(n, enc, calls, k - 1), enc, calls)
  }

  ghost predicate ToUsersOnly(calls: seq<ProxyCall>) {
    forall i :: 0 <= i < |calls| ==> !calls[i].ToLocalGroup?
  }

  lemma DoneOnOneNode(c: ClusterState, cap: nat, at: NodeId, enc: Encoder, call: ProxyCall)
    requires Cluster.Settled(c, cap) && at in c.nodes && !call.ToLocalGroup?
    ensures var c' := Do(c, at, enc, call);
      Cluster.Settled(c', cap) && Merge(c', cap) == OnNode(Merge(c, cap), enc, call)
  {
    var m := UserPayload(enc, call.rd);
    var op: RoutedOp := if call.ToUser? then SendMsg(call.uid, m) else SendMsgByTgid(call.uid, call.gid, m);
    LocationTransparency(c, cap, at, op);
    RouteKeepsSettled(c, cap, at, op);
  }

  /** Calls for users, made on any node, are the same calls on the one big node. */
  lemma {:induction false} AllDoneOnOneNode(c: ClusterState, cap: nat, at: NodeId, enc: Encoder, calls: seq<ProxyCall>)
    requires Cluster.Settled(c, cap) && at in c.nodes && ToUsersOnly(calls)
    ensures var c' := DoAll(c, at, enc, calls);
      Cluster.Settled(c', cap) && Merge(c', cap) == OnNodeAll(Merge(c, cap), enc, calls)
    decreases |calls|
  {
    if calls != [] {
      var init := calls[..|calls| - 1];
      AllDoneOnOneNode(c, cap, at, enc, init);
      DoneOnOneNode(DoAll(c, at, enc, init), cap, at, enc, calls[|calls| - 1]);
    }
  }

  lemma NamedUserOnly(sub: SubMsg)
    requires sub.toUid != ""
    ensures ToUsersOnly(CallsFor(sub))
  {
  }

  lemma UserMessageOnce(c: ClusterState, cap: nat, at: NodeId, enc: Encoder, sub: SubMsg)
    requires Cluster.Settled(c, cap) && at in c.nodes && sub.toUid != ""
    ensures var c' := Handle(c, at, enc, sub);
      Cluster.Settled(c', cap) && Merge(c', cap) == OnNodeAll(Merge(c, cap), enc, CallsFor(sub))
  {
    NamedUserOnly(sub);
    AllDoneOnOneNode(c, cap, at, enc, CallsFor(sub));
  }

  lemma {:induction false} HandleAllLast(c: ClusterState, order: seq<NodeId>, last: NodeId, enc: Encoder, sub: SubMsg)
    requires (forall n :: n in order ==> n in c.nodes) && last in c.nodes
    ensures HandleAll(c, order, enc, sub).nodes.Keys == c.nodes.Keys
    ensures HandleAll(c, order + [last], enc, sub) == Handle(HandleAll(c, order, enc, sub), last, enc, sub)
    decreases |order|
  {
    if order == [] {
      assert [last][1..] == [];
    } else {
      assert (order + [last])[1..] == order[1..] + [last];
      HandleAllLast(Handle(c, order[0], enc, sub), order[1..], last, enc, sub);
    }
  }

  lemma OnceMore(c: ClusterState, c1: ClusterState, cap: nat, last: NodeId, enc: Encoder, sub: SubMsg, k: nat)
    requires Cluster.Settled(c1, cap) && last in c1.nodes && sub.toUid != "" && k > 0
    requires Merge(c1, cap) == Times(Merge(c, cap), enc, CallsFor(sub), k - 1)
    ensures Cluster.Settled(Handle(c1, last, enc, sub), cap)
    ensures Merge(Handle(c1, last, enc, sub), cap) == Times(Merge(c, cap), enc, CallsFor(sub), k)
  {
    UserMessageOnce(c1, cap, last, enc, sub);
  }

  lemma {:induction false} LastNodeToo(
    c: ClusterState, cap: nat, init: seq<NodeId>, last: NodeId, enc: Encoder, sub: SubMsg)
    requires Cluster.Settled(c, cap) && sub.toUid != "" && last in c.nodes && forall n :: n in init ==> n in c.nodes
    ensures forall n :: n in init + [last] ==> n in c.nodes
    ensures var c' := HandleAll(c, init + [last], enc, sub);
      Cluster.Settled(c', cap) && Merge(c', cap) == Times(Merge(c, cap), enc, CallsFor(sub), |init| + 1)
    decreases |init| + 1, 0
  {
    HandleAllLast(c, init, last, enc, sub);
    ToUserOncePerNode(c, cap, init, enc, sub);
    OnceMore(c, HandleAll(c, init, enc, sub), cap, last, enc, sub, |init| + 1);
  }

  /** A message that names a user, with or without groups, is routed to that user by every node that
      handles it: handled on k nodes, it does k times over what the local proxy does once. */
  lemma {:induction false} ToUserOncePerNode(c: ClusterState, cap: nat, order: seq<NodeId>, enc: Encoder, sub: SubMsg)
    requires Cluster.Settled(c, cap) && (forall n :: n in order ==> n in c.nodes) && sub.toUid != ""
    ensures Merge(HandleAll(c, order, enc, sub), cap) == Times(Merge(c, cap), enc, CallsFor(sub), |order|)
    ensures Cluster.Settled(HandleAll(c, order, enc, sub), cap)
    decreases |order|, 1
  {
    if order != [] {
      var init, last := order[..|order| - 1], order[|order| - 1];
      assert order == init + [last];
      LastNodeToo(c, cap, init, last, enc, sub);
    }
  }

  // ---- whole runs --------------------------------------------------------------------------

  /** A call of the proxy on some node. */
  datatype Request =
    | Single(op: RoutedOp)
    | StopEntry(online: UserOnline)       // stop by directory entry
    | Group(gid: Gid, rd: ResponseData, exceptUid: Uid)

  ghost predicate Plain(r: Request) {
    r.Group? ==> r.gid != "" && r.rd.s == 1
  }

  /** The call made on node `from`; a published message is handled by the nodes in the given order. */
  datatype Call = Call(from: NodeId, order: seq<NodeId>, r: Request)

  ghost predicate Possible(c: ClusterState, call: Call) {
    && call.from in c.nodes && EachOnce(c, call.order) && Plain(call.r)
    && (call.r.StopEntry? ==> EntryIsTrue(c, call.r.online))
  }

  ghost function OnCluster(c: ClusterState, enc: Encoder, call: Call): ClusterState
    requires Possible(c, call)
  {
    match call.r
    case Single(op) => Route(c, call.from, op).0
    case StopEntry(online) => RouteStop(c, call.from, online)
    case Group(gid, rd, ex) => HandleAll(c, call.order, enc, Published(gid, rd, ex))
  }

  function OnOneNode(n: NodeVal, enc: Encoder, r: Request): NodeVal {
    match r
    case Single(op) => LocalOp(n, op)
    case StopEntry(online) => Stop(n, online.userId)
    case Group(gid, rd, ex) => LocalSend(n, enc, gid, rd, ex)
  }

  lemma {:induction false} SendListKeepsShape(n: NodeVal, enc: Encoder, gids: seq<Gid>, rd: ResponseData, ex: Uid)
    requires Coherent(n)
    ensures var n' := LocalSendList(n, enc, gids, rd, ex);
      Coherent(n') && n'.cap == n.cap && n'.clients.Keys == n.clients.Keys
    decreases |gids|
  {
    if gids != [] {
      var init := gids[..|gids| - 1];
      SendListKeepsShape(n, enc, init, rd, ex);
      SendsKeepCoherent(LocalSendList(n, enc, init, rd, ex), "", gids[|gids| - 1], [], GroupPayload(enc, rd, ex));
    }
  }

  lemma GroupCallKeepsSettled(c: ClusterState, cap: nat, enc: Encoder, order: seq<NodeId>, sub: SubMsg)
    requires Cluster.Settled(c, cap) && EachOnce(c, order) && sub.toUid == ""
    ensures var c' := HandleAll(c, order, enc, sub); Cluster.Settled(c', cap) && c'.nodes.Keys == c.nodes.Keys
  {
    HandledOnEach(c, order, enc, sub);
    forall n | n in c.nodes
      ensures var n' := HandleLocal(c.nodes[n], enc, sub);
        Coherent(n') && n'.cap == cap && n'.clients.Keys == c.nodes[n].clients.Keys
    {
      SendListKeepsShape(c.nodes[n], enc, Targets(sub), SubData(sub), sub.exceptUid);
    }
    SameConnections(c, OnEach(c, order, enc, sub), cap);
  }

  lemma GroupCallRefinesLocal(
    c: ClusterState, cap: nat, enc: Encoder, order: seq<NodeId>, gid: Gid, rd: ResponseData, ex: Uid)
    requires Cluster.Settled(c, cap) && EachOnce(c, order) && gid != "" && rd.s == 1
    ensures var c' := HandleAll(c, order, enc, Published(gid, rd, ex));
      && Merge(c', cap) == LocalSend(Merge(c, cap), enc, gid, rd, ex)
      && Cluster.Settled(c', cap) && c'.nodes.Keys == c.nodes.Keys
  {
    BroadcastRefinesLocal(c, cap, order, enc, gid, rd, ex);
    GroupCallKeepsSettled(c, cap, enc, order, Published(gid, rd, ex));
  }

  lemma CallRefinesLocal(c: ClusterState, cap: nat, enc: Encoder, call: Call)
    requires Cluster.Settled(c, cap) && Possible(c, call)
    ensures Merge(OnCluster(c, enc, call), cap) == OnOneNode(Merge(c, cap), enc, call.r)
    ensures Cluster.Settled(OnCluster(c, enc, call), cap) && OnCluster(c, enc, call).nodes.Keys == c.nodes.Keys
  {
    match call.r
    case Single(op) =>
      LocationTransparency(c, cap, call.from, op);
      RouteKeepsSettled(c, cap, call.from, op);
    case StopEntry(online) =>
      StopIsTransparent(c, cap, call.from, online);
      StopKeepsSettled(c, cap, call.from, online);
    case Group(gid, rd, ex) =>
      GroupCallRefinesLocal(c, cap, enc, call.order, gid, rd, ex);
  }

  /** The same calls, one after the other, on one node with the local proxy. */
  function OneNodeRun(n: NodeVal, enc: Encoder, calls: seq<Call>): NodeVal {
    if calls == [] then n
    else OnOneNode(OneNodeRun(n, enc, calls[..|calls| - 1]), enc, calls[|calls| - 1].r)
  }

  ghost predicate Follows(c: ClusterState, c': ClusterState, enc: Encoder, call: Call) {
    Possible(c, call) && c' == OnCluster(c, enc, call)
  }

  ghost predicate IsClusterRun(cs: seq<ClusterState>, enc: Encoder, calls: seq<Call>) {
    |cs| == |calls| + 1 && forall i: nat :: i < |calls| ==> Follows(cs[i], cs[i + 1], enc, calls[i])
  }

  lemma StepRefinesLocal(c: ClusterState, c': ClusterState, cap: nat, enc: Encoder, call: Call)
    requires Cluster.Settled(c, cap) && Follows(c, c', enc, call)
    ensures Merge(c', cap) == OnOneNode(Merge(c, cap), enc, call.r) && Cluster.Settled(c', cap)
  {
    CallRefinesLocal(c, cap, enc, call);
  }

  lemma {:induction false} OneMoreCall(n: NodeVal, enc: Encoder, calls: seq<Call>, i: nat)
    requires 0 < i <= |calls|
    ensures OneNodeRun(n, enc, calls[..i]) == OnOneNode(OneNodeRun(n, enc, calls[..i - 1]), enc, calls[i - 1].r)
  {
    assert calls[..i][..i - 1] == calls[..i - 1];
  }

  /** The cluster is one big node: any run of proxy calls, each made on any node, leaves the clients
      and members of all nodes together as the same calls leave them on a single node. */
  lemma {:induction false} ClusterIsOneNode(cs: seq<ClusterState>, cap: nat, enc: Encoder, calls: seq<Call>, i: nat)
    requires IsClusterRun(cs, enc, calls) && Cluster.Settled(cs[0], cap) && i < |cs|
    ensures Merge(cs[i], cap) == OneNodeRun(Merge(cs[0], cap), enc, calls[..i])
    ensures Cluster.Settled(cs[i], cap)
  {
    if i > 0 {
      ClusterIsOneNode(cs, cap, enc, calls, i - 1);
      assert Follows(cs[i - 1], cs[i - 1 + 1], enc, calls[i - 1]);
      StepRefinesLocal(cs[i - 1], cs[i], cap, enc, calls[i - 1]);
      OneMoreCall(Merge(cs[0], cap), enc, calls, i);
    } else {
      assert calls[..0] == [];
    }
  }
}
