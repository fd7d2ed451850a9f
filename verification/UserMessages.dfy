/** Published messages that name a user: exactly when handling them on every node does no harm; and
    concrete clusters in which publishing and the local proxy differ. */
module UserMessages {
  import opened Types
  import opened NodeSpec
  import opened Cluster
  import opened Broadcast

  // ---- one client offered a message again and again ----------------------------------------

  function Offers(c: ClientVal, cap: nat, m: Bytes, k: nat): (r: ClientVal)
    ensures r.groups == c.groups
    decreases k
  {
    if k == 0 then c else Offer(Offers(c, cap, m, k - 1), cap, m)
  }

  /** Room for k more messages. */
  predicate Room(c: ClientVal, cap: nat, k: nat) {
    c.online && |c.queue| + k <= cap
  }

  lemma {:induction false} OffersWithRoom(c: ClientVal, cap: nat, m: Bytes, k: nat)
    ensures k > 0 ==> (Offers(c, cap, m, k).online <==> Room(c, cap, k))
    ensures Offers(c, cap, m, k).online ==> |Offers(c, cap, m, k).queue| == |c.queue| + k
    decreases k
  {
    if k > 0 { OffersWithRoom(c, cap, m, k - 1); }
  }

  lemma {:induction false} OfflineForGood(c: ClientVal, cap: nat, m: Bytes, a: nat, b: nat)
    requires a <= b && !Offers(c, cap, m, a).online
    ensures Offers(c, cap, m, b) == Offers(c, cap, m, a)
    decreases b
  {
    if a < b { OfflineForGood(c, cap, m, a, b - 1); }
  }

  lemma {:induction false} OffersAdd(c: ClientVal, cap: nat, m: Bytes, a: nat, b: nat)
    ensures Offers(Offers(c, cap, m, a), cap, m, b) == Offers(c, cap, m, a + b)
    decreases b
  {
    if b > 0 { OffersAdd(c, cap, m, a, b - 1); }
  }

  /** More offers make a difference exactly when the first ones were all accepted. */
  lemma MoreOffers(c: ClientVal, cap: nat, m: Bytes, a: nat, b: nat)
    requires 0 < a <= b
    ensures Offers(c, cap, m, a) == Offers(c, cap, m, b) <==> a == b || !Room(c, cap, a)
  {
    OffersWithRoom(c, cap, m, a);
    OffersWithRoom(c, cap, m, b);
    if !Room(c, cap, a) { OfflineForGood(c, cap, m, a, b); }
  }

  // ---- the calls of one message ------------------------------------------------------------

  predicate IsFor(call: ProxyCall, uid: Uid, rd: ResponseData) {
    match call
    case ToLocalGroup(_, _, _) => false
    case ToGroupUser(u, _, d) => u == uid && d == rd
    case ToUser(u, d) => u == uid && d == rd
  }

  ghost predicate AllFor(calls: seq<ProxyCall>, uid: Uid, rd: ResponseData) {
    forall i :: 0 <= i < |calls| ==> IsFor(calls[i], uid, rd)
  }

  predicate Reaches(groups: set<Gid>, call: ProxyCall) {
    call.ToUser? || (call.ToGroupUser? && call.gid in groups)
  }

  /** How many of the calls reach a user in the given groups. */
  function Addressed(groups: set<Gid>, calls: seq<ProxyCall>): nat {
    if calls == [] then 0
    else
      var call := calls[|calls| - 1];
      Addressed(groups, calls[..|calls| - 1]) + if Reaches(groups, call) then 1 else 0
  }

  lemma CallsAreForUser(sub: SubMsg)
    requires sub.toUid != ""
    ensures AllFor(CallsFor(sub), sub.toUid, SubData(sub))
  {
  }

  function Offered(n: NodeVal, uid: Uid, m: Bytes, k: nat): NodeVal
    requires uid in n.clients
  {
    SetClient(n, uid, Offers(n.clients[uid], n.cap, m, k))
  }

  lemma OfferedNothing(n: NodeVal, uid: Uid, m: Bytes)
    requires uid in n.clients
    ensures Offered(n, uid, m, 0) == n
  {
    assert n.clients[uid := n.clients[uid]] == n.clients;
  }

  lemma OfferedMore(n: NodeVal, uid: Uid, m: Bytes, a: nat, b: nat)
    requires uid in n.clients
    ensures Offered(Offered(n, uid, m, a), uid, m, b) == Offered(n, uid, m, a + b)
  {
    OffersAdd(n.clients[uid], n.cap, m, a, b);
  }

  lemma OneCallMore(n: NodeVal, enc: Encoder, call: ProxyCall, uid: Uid, rd: ResponseData, k: nat)
    requires uid in n.clients && IsFor(call, uid, rd)
    ensures var m := UserPayload(enc, rd);
      OnNode(Offered(n, uid, m, k), enc, call) ==
      Offered(n, uid, m, k + if Reaches(n.clients[uid].groups, call) then 1 else 0)
  {
  }

  /** The calls change the one client, by as many offers as there are calls for it. */
  lemma {:induction false} NodeAfterCalls(n: NodeVal, enc: Encoder, calls: seq<ProxyCall>, uid: Uid, rd: ResponseData)
    requires AllFor(calls, uid, rd)
    ensures OnNodeAll(n, enc, calls) ==
      if uid !in n.clients then n
      else Offered(n, uid, UserPayload(enc, rd), Addressed(n.clients[uid].groups, calls))
    decreases |calls|
  {
    if calls == [] {
      if uid in n.clients { OfferedNothing(n, uid, UserPayload(enc, rd)); }
    } else {
      var init, call := calls[..|calls| - 1], calls[|calls| - 1];
      assert IsFor(call, uid, rd);
      NodeAfterCalls(n, enc, init, uid, rd);
      if uid in n.clients { OneCallMore(n, enc, call, uid, rd, Addressed(n.clients[uid].groups, init)); }
    }
  }

  lemma OneTimeMore(a: nat, k: nat)
    requires k > 0
    ensures a * (k - 1) + a == a * k && a * (k - 1) >= 0
  {
  }

  lemma {:induction false} NodeAfterTimes(
    n: NodeVal, enc: Encoder, calls: seq<ProxyCall>, uid: Uid, rd: ResponseData, k: nat)
    requires AllFor(calls, uid, rd)
    ensures Times(n, enc, calls, k) ==
      if uid !in n.clients then n
      else Offered(n, uid, UserPayload(enc, rd), Addressed(n.clients[uid].groups, calls) * k)
    decreases k
  {
    if k == 0 {
      if uid in n.clients { OfferedNothing(n, uid, UserPayload(enc, rd)); }
    } else {
      NodeAfterTimes(n, enc, calls, uid, rd, k - 1);
      NodeAfterCalls(Times(n, enc, calls, k - 1), enc, calls, uid, rd);
      if uid in n.clients {
        var a := Addressed(n.clients[uid].groups, calls);
        OfferedMore(n, uid, UserPayload(enc, rd), a * (k - 1), a);
        OneTimeMore(a, k);
      }
    }
  }

  /** The user is not there, is in none of the message's groups, or would not take all its copies. */
  predicate Spared(n: NodeVal, sub: SubMsg) {
    sub.toUid in n.clients ==>
      var c := n.clients[sub.toUid];
      var a := Addressed(c.groups, CallsFor(sub));
      a == 0 || !Room(c, n.cap, a)
  }

  lemma OneOfMany(a: nat, k: nat)
    requires k > 0
    ensures a <= a * k && (a == a * k <==> a == 0 || k == 1)
  {
    if a > 0 && k > 1 { assert a * k == a + a * (k - 1) && a * (k - 1) > 0; }
  }

  lemma SetClientDiffers(n: NodeVal, uid: Uid, x: ClientVal, y: ClientVal)
    ensures SetClient(n, uid, x) == SetClient(n, uid, y) <==> x == y
  {
    assert SetClient(n, uid, x).clients[uid] == x && SetClient(n, uid, y).clients[uid] == y;
  }

  /** Handling the message k times is handling it once exactly when k is 1 or the user is spared. */
  lemma TimesIsOnceIff(n: NodeVal, enc: Encoder, sub: SubMsg, k: nat)
    requires sub.toUid != "" && k > 0
    ensures Times(n, enc, CallsFor(sub), k) == OnNodeAll(n, enc, CallsFor(sub)) <==> k == 1 || Spared(n, sub)
  {
    var calls, uid, rd := CallsFor(sub), sub.toUid, SubData(sub);
    CallsAreForUser(sub);
    NodeAfterCalls(n, enc, calls, uid, rd);
    NodeAfterTimes(n, enc, calls, uid, rd, k);
    if uid in n.clients {
      var c, m := n.clients[uid], UserPayload(enc, rd);
      var a := Addressed(c.groups, calls);
      OneOfMany(a, k);
      if a > 0 { MoreOffers(c, n.cap, m, a, a * k); }
      SetClientDiffers(n, uid, Offers(c, n.cap, m, a), Offers(c, n.cap, m, a * k));
    }
  }

  /** A message that names a user, with or without groups, handled once on every node, does what the
      local proxy does on the one big node if and only if there is one node only, or the user is not
      connected, or in none of the message's groups, or would not take all its copies. */
  lemma UserMessageExactly(c: ClusterState, cap: nat, order: seq<NodeId>, enc: Encoder, sub: SubMsg)
    requires Cluster.Settled(c, cap) && EachOnce(c, order) && order != [] && sub.toUid != ""
    ensures Merge(HandleAll(c, order, enc, sub), cap) == OnNodeAll(Merge(c, cap), enc, CallsFor(sub)) <==>
      |order| == 1 || Spared(Merge(c, cap), sub)
  {
    ToUserOncePerNode(c, cap, order, enc, sub);
    TimesIsOnceIff(Merge(c, cap), enc, sub, |order|);
  }

  // ---- a cluster of two nodes --------------------------------------------------------------

  const A := NodeId("1", "2", "3")
  const B := NodeId("4", "5", "6")
  const U: Uid := "u"
  const Cap: nat := 9

  /** User u on the first node, online with an empty queue, in the group "g" and in the one without a name. */
  const UserOfA := ClientVal(true, {"g", ""}, [])

  const Busy := NodeVal(Cap, map[U := UserOfA], map["g" := {U}, "" := {U}])
  const Idle := NodeVal(Cap, map[], map[])

  const Peers: map<string, string> := map["s" + AddrOf(A) := AddrOf(A), "s" + AddrOf(B) := AddrOf(B)]

  const Two := ClusterState("s", map[A := Busy, B := Idle], map[U := EntryFor(A, U)], map[A := Peers, B := Peers])

  lemma AddressesDiffer()
    ensures AddrOf(A) != AddrOf(B) && "s" + AddrOf(A) != "s" + AddrOf(B)
  {
    assert AddrOf(A)[0] == '1' && AddrOf(B)[0] == '4';
    assert ("s" + AddrOf(A))[1] == '1' && ("s" + AddrOf(B))[1] == '4';
  }

  lemma TwoIsWellFormed()
    ensures WellFormed(Two, Cap) && EachOnce(Two, [A, B])
  {
    assert Coherent(Busy) && Coherent(Idle);
    assert Two.nodes.Keys == {A, B};
  }

  lemma TwoHasRightPeers()
    ensures PeersRight(Two)
  {
    AddressesDiffer();
    forall from, n | from in Two.nodes && n in Two.nodes ensures PeerAddr(Two, from, AddrOf(n)) == Some(AddrOf(n)) {
      assert Two.peers[from] == Peers;
    }
  }

  lemma TwoIsSettled()
    ensures Cluster.Settled(Two, Cap) && EachOnce(Two, [A, B])
  {
    TwoIsWellFormed();
    TwoHasRightPeers();
  }

  lemma ClientsOfTwo()
    ensures Merge(Two, Cap).clients == map[U := UserOfA]
  {
    TwoIsWellFormed();
    assert Hosts(Two, A, U);
    MergedClient(Two, Cap, A, U);
    assert Users(Two) == {U};
  }

  lemma UIsMember(k: Gid)
    requires k == "g" || k == ""
    ensures U in MembersOf(Merge(Two, Cap).table, k)
  {
    TwoIsWellFormed();
    assert Hosts(Two, A, U);
    MergedClient(Two, Cap, A, U);
    MembersAreHosted(Two, Cap, U, k);
    MergedMembers(Two, Cap, k);
  }

  function ForU(inGroup: bool, data: AData): SubMsg {
    SubMsg(if inGroup then "g" else "", [], "", "", data, "", U)
  }

  lemma OneCall(inGroup: bool, data: AData)
    ensures Addressed(UserOfA.groups, CallsFor(ForU(inGroup, data))) == 1
  {
    var calls := CallsFor(ForU(inGroup, data));
    assert |calls| == 1 && calls[..0] == [];
    assert Addressed(UserOfA.groups, calls[..0]) == 0;
  }

  /** On two nodes the user gets a message that names it twice, whether or not it names a group too. */
  lemma TwoNodesTwoCopies(enc: Encoder, inGroup: bool, data: AData)
    ensures var sub := ForU(inGroup, data);
      var m := UserPayload(enc, SubData(sub));
      && U in Merge(HandleAll(Two, [A, B], enc, sub), Cap).clients
      && Merge(HandleAll(Two, [A, B], enc, sub), Cap).clients[U].queue == [m, m]
      && U in OnNodeAll(Merge(Two, Cap), enc, CallsFor(sub)).clients
      && OnNodeAll(Merge(Two, Cap), enc, CallsFor(sub)).clients[U].queue == [m]
  {
    var sub := ForU(inGroup, data);
    var n, m := Merge(Two, Cap), UserPayload(enc, SubData(sub));
    TwoIsSettled();
    ClientsOfTwo();
    OneCall(inGroup, data);
    CallsAreForUser(sub);
    ToUserOncePerNode(Two, Cap, [A, B], enc, sub);
    NodeAfterCalls(n, enc, CallsFor(sub), U, SubData(sub));
    NodeAfterTimes(n, enc, CallsFor(sub), U, SubData(sub), 2);
    TwoOffers(m);
  }

  lemma TwoOffers(m: Bytes)
    ensures Offers(UserOfA, Cap, m, 1).queue == [m] && Offers(UserOfA, Cap, m, 2).queue == [m, m]
  {
    assert Offers(UserOfA, Cap, m, 0) == UserOfA;
    assert Offers(UserOfA, Cap, m, 1) == UserOfA.(queue := [m]);
  }

  lemma UIsReached(k: Gid)
    requires k == "g" || k == ""
    ensures var n := Merge(Two, Cap); U in Recipients(n, k, "") && n.clients[U].online && Accepts(n.clients[U], n.cap)
  {
    ClientsOfTwo();
    UIsMember(k);
  }

  /** A status other than 1 does not arrive. */
  lemma StatusIsLost(enc: Encoder, data: AData)
    requires Injective(enc)
    ensures Merge(HandleAll(Two, [A, B], enc, Published("g", ResponseData(0, data), "")), Cap) !=
      LocalSend(Merge(Two, Cap), enc, "g", ResponseData(0, data), "")
  {
    TwoIsSettled();
    UIsReached("g");
    BroadcastExactly(Two, Cap, [A, B], enc, "g", ResponseData(0, data), "");
  }

  /** A message to the group without a name reaches nobody. */
  lemma EmptyGidIsLost(enc: Encoder, data: AData)
    requires Injective(enc)
    ensures Merge(HandleAll(Two, [A, B], enc, Published("", ResponseData(1, data), "")), Cap) !=
      LocalSend(Merge(Two, Cap), enc, "", ResponseData(1, data), "")
  {
    TwoIsSettled();
    UIsReached("");
    BroadcastExactly(Two, Cap, [A, B], enc, "", ResponseData(1, data), "");
  }
}
