/** The guarantees of the group protocol, for every run: any number of calls, in any interleaving. */
module GroupTheorems {
  import opened Types
  import opened GroupProtocol
  import opened GroupInvariant
  import opened GroupHistory
  import opened GroupMembership
  import opened GroupFanOut

  // ---- every reachable state ---------------------------------------------------------------

  ghost predicate Good(s: State) {
    Inv(s) && JoinsOk(s) && OrderOk(s) && NoLeak(s) && FansOk(s)
  }

  lemma StepKeepsGood(s: State, st: Step)
    requires Good(s) && Enabled(s, st)
    ensures Good(Apply(s, st))
  {
    StepKeepsInv(s, st);
    StepKeepsJoins(s, st);
    StepKeepsOrder(s, st);
    StepKeepsNoLeak(s, st);
    StepKeepsFans(s, st);
  }

  lemma {:induction false} RunIsGood(tr: seq<State>, i: nat)
    requires IsRun(tr) && i < |tr|
    ensures Good(tr[i])
  {
    if i > 0 {
      RunIsGood(tr, i - 1);
      assert Linked(tr, i - 1);
      var st :| Enabled(tr[i - 1], st) && tr[i] == Apply(tr[i - 1], st);
      StepKeepsGood(tr[i - 1], st);
    }
  }

  // ---- life cycle --------------------------------------------------------------------------

  /** In every reachable state: a group whose users lock is not write-held is live exactly when the
      manager maps its gid to that very object; a dead one has no users; and of all the objects a
      gid ever had, at most one has users. */
  lemma LiveIffMapped(tr: seq<State>, i: nat)
    requires IsRun(tr) && i < |tr|
    ensures forall g: nat :: g < |tr[i].groups| && !tr[i].groups[g].lock.Writer? ==>
      (tr[i].groups[g].alive <==> IsMapped(tr[i], g))
    ensures forall g: nat :: g < |tr[i].groups| && !tr[i].groups[g].alive ==> tr[i].groups[g].users == {}
    ensures forall g: nat, h: nat ::
      g < |tr[i].groups| && h < |tr[i].groups| && tr[i].groups[g].gid == tr[i].groups[h].gid ==>
      tr[i].groups[g].users != {} && tr[i].groups[h].users != {} ==> g == h
  {
    RunIsGood(tr, i);
    forall g: nat | g < |tr[i].groups|
      ensures !tr[i].groups[g].lock.Writer? ==> (tr[i].groups[g].alive <==> IsMapped(tr[i], g))
      ensures !tr[i].groups[g].alive ==> tr[i].groups[g].users == {}
      ensures tr[i].groups[g].users != {} ==> IsMapped(tr[i], g)
    {
      assert GroupOk(tr[i], g);
      if tr[i].groups[g].lock.Writer? { assert ThreadOk(tr[i], tr[i].groups[g].lock.t); }
    }
  }

  lemma NextGrows(s: State, s': State)
    requires Next(s, s')
    ensures Grows(s, s')
  {
    var st :| Enabled(s, st) && s' == Apply(s, st);
    StepGrows(s, st);
  }

  /** A dead group stays dead and is never mapped again. */
  lemma {:induction false} DeadForever(tr: seq<State>, i: nat, j: nat, g: nat)
    requires IsRun(tr) && i <= j < |tr| && g < |tr[i].groups| && !tr[i].groups[g].alive
    ensures g < |tr[j].groups| && !tr[j].groups[g].alive && !IsMapped(tr[j], g)
    ensures tr[j].groups[g].gid == tr[i].groups[g].gid
    decreases j - i
  {
    RunIsGood(tr, j);
    if i < j {
      DeadForever(tr, i, j - 1, g);
      assert Linked(tr, j - 1);
      NextGrows(tr[j - 1], tr[j]);
    }
    assert GroupOk(tr[j], g);
  }

  /** The channel of every group object is closed at most once, and only when the group is dead. */
  lemma ClosedAtMostOnce(tr: seq<State>, i: nat, g: nat)
    requires IsRun(tr) && i < |tr| && g < |tr[i].groups|
    ensures tr[i].groups[g].closes <= 1
    ensures tr[i].groups[g].closes == 1 ==> !tr[i].groups[g].alive
    ensures !tr[i].groups[g].alive && !tr[i].groups[g].lock.Writer? ==> tr[i].groups[g].closes == 1
  {
    RunIsGood(tr, i);
    assert GroupOk(tr[i], g);
  }

  /** The teardown a listener runs on exit changes nothing but its own program counter. */
  lemma TeardownIsNoOp(s: State, g: nat)
    requires Good(s) && g < |s.groups| && (s.groups[g].listener.TearUnmap? || s.groups[g].listener.TearClose?)
    ensures ListenReady(s, g)
    ensures ListenStep(s, g) == SetGroup(s, g, s.groups[g].(listener := ListenStep(s, g).groups[g].listener))
  {
    assert GroupOk(s, g);
  }

  /** A leave that looked up group g, whatever happened since: no step of it touches another group
      object or unmaps one, and if g is dead it changes nothing but the lock of g. */
  lemma StaleLeaveIsHarmless(s: State, t: Tid, g: nat)
    requires Good(s) && t in s.threads && s.threads[t].Leave? && LeaveReady(s, s.threads[t])
    requires s.threads[t].lpc == LKnock(g) || Inside(s.threads[t], g)
    ensures var s' := LeaveStep(s, t, s.threads[t]);
      && g < |s.groups| == |s'.groups|
      && (forall h: nat :: h < |s.groups| && h != g ==>
        s'.groups[h] == s.groups[h] && (IsMapped(s, h) ==> IsMapped(s', h)))
      && (!s.groups[g].alive && !s.threads[t].lpc.LClose? ==>
            s'.mapped == s.mapped && s'.groups[g] == s.groups[g].(lock := s'.groups[g].lock))
  {
    var s' := LeaveStep(s, t, s.threads[t]);
    assert ThreadOk(s, t);
    assert GroupOk(s, g);
    assert s'.groups == s.groups[g := s'.groups[g]];
  }

  // ---- joins -------------------------------------------------------------------------------

  /** The groups of a gid that died since the call began. */
  function DiedSince(s: State, gid: Gid, before: set<nat>): set<nat> {
    set g: nat | g < |s.groups| && !s.groups[g].alive && s.groups[g].gid == gid && g !in before
  }

  /** A join retries no more often than groups of its gid died during the call. */
  lemma RetriesAreBounded(tr: seq<State>, i: nat, t: Tid)
    requires IsRun(tr) && i < |tr| && t in tr[i].threads && tr[i].threads[t].Join?
    ensures var th := tr[i].threads[t]; |th.met| <= |DiedSince(tr[i], th.gid, th.deadBefore)|
  {
    RunIsGood(tr, i);
    var th := tr[i].threads[t];
    assert MetOk(tr[i], th);
    DistinctFit(th.met, DiedSince(tr[i], th.gid, th.deadBefore));
  }

  lemma {:induction false} DistinctFit(xs: seq<nat>, s: set<nat>)
    requires forall i, j :: 0 <= i < j < |xs| ==> xs[i] != xs[j]
    requires forall x :: x in xs ==> x in s
    ensures |xs| <= |s|
  {
    if xs != [] {
      assert xs[0] in xs;
      DistinctFit(xs[1..], s - {xs[0]});
    }
  }

  predicate SameJoin(a: Thread, b: Thread) {
    a.Join? && b.Join? && b.uid == a.uid && b.gid == a.gid && b.deadBefore == a.deadBefore
  }

  lemma RunOthersSame(s: State, t: Tid)
    requires t in s.threads && RunReady(s, s.threads[t])
    ensures OthersSame(s, RunStep(s, t, s.threads[t]), t)
  {
    var th := s.threads[t];
    if th.Leave? { LeaveMovesOn(s, t, th); }
  }

  lemma RunKeepsJoin(s: State, u: Tid, t: Tid)
    requires u in s.threads && RunReady(s, s.threads[u]) && t in s.threads && s.threads[t].Join?
    ensures var s' := RunStep(s, u, s.threads[u]); t in s'.threads ==> SameJoin(s.threads[t], s'.threads[t])
  {
    if u == t {
      assert RunStep(s, t, s.threads[t]) == JoinStep(s, t, s.threads[t]);
    } else {
      RunOthersSame(s, u);
    }
  }

  lemma NextKeepsJoin(s: State, s': State, t: Tid)
    requires Next(s, s') && t in s.threads && s.threads[t].Join? && t in s'.threads
    ensures SameJoin(s.threads[t], s'.threads[t])
  {
    var st :| Enabled(s, st) && s' == Apply(s, st);
    match st
    case Run(u) => RunKeepsJoin(s, u, t);
    case Listen(g) => ListenMovesOn(s, g);
    case _ =>
  }

  lemma StepKeepsCall(tr: seq<State>, k: nat, t: Tid)
    requires IsRun(tr) && k + 1 < |tr| && t in tr[k].threads && tr[k].threads[t].Join? && t in tr[k + 1].threads
    ensures SameJoin(tr[k].threads[t], tr[k + 1].threads[t])
  {
    assert Linked(tr, k);
    NextKeepsJoin(tr[k], tr[k + 1], t);
  }

  /** A call in flight keeps what it recorded when it began: what was dead at that moment. */
  lemma {:induction false} CallLasts(tr: seq<State>, i: nat, j: nat, t: Tid)
    requires IsRun(tr) && i <= j < |tr| && (forall k :: i <= k <= j ==> t in tr[k].threads) && tr[i].threads[t].Join?
    ensures SameJoin(tr[i].threads[t], tr[j].threads[t])
    decreases j - i
  {
    if i < j {
      CallLasts(tr, i, j - 1, t);
      StepKeepsCall(tr, j - 1, t);
    }
  }

  /** A join succeeds on an object that is live and mapped at that moment, and is then its user;
      otherwise it met an object that is dead for good. */
  lemma JoinLands(s: State, t: Tid, g: nat)
    requires Good(s) && t in s.threads && s.threads[t].Join? && s.threads[t].jpc == JEnter(g) &&
      JoinReady(s, s.threads[t])
    ensures var s', th := JoinStep(s, t, s.threads[t]), s.threads[t];
      if s.groups[g].alive then
        IsMapped(s, g) && IsMapped(s', g) && s'.groups[g].users == s.groups[g].users + {th.uid} &&
          s'.threads[t].jpc.JNote?
      else
        s'.groups == s.groups && s'.threads[t].jpc.JLook? && s'.threads[t].met == th.met + [g] && !IsMapped(s, g)
  {
    assert ThreadOk(s, t) && GroupOk(s, g);
  }

  // ---- deliveries --------------------------------------------------------------------------

  /** Every delivery is made by the object mapped at that moment, to one of its users. */
  lemma DeliveredByMapped(s: State, g: nat, uid: Uid)
    requires Good(s) && g < |s.groups| && DeliverReady(s, g, uid)
    ensures IsMapped(s, g) && s.groups[g].alive
    ensures uid in s.groups[g].users && uid != s.groups[g].listener.e.msg.exceptUid
  {
    NewestIsLast(s, g);
    assert GroupOk(s, g) && FanOk(s, g);
  }

  /** Of two deliveries for one gid, the earlier is by the same or an older object, and of the same
      message (then to someone else) or of one that entered its channel earlier. */
  lemma DeliveriesAreOrdered(tr: seq<State>, n: nat, i: nat, j: nat)
    requires IsRun(tr) && n < |tr| && i < j < |tr[n].log| && tr[n].log[i].gid == tr[n].log[j].gid
    ensures var a, b := tr[n].log[i], tr[n].log[j];
      a.g <= b.g && (a.at < b.at || (a.at == b.at && a.g == b.g && a.uid != b.uid))
  {
    RunIsGood(tr, n);
    assert Ordered(tr[n].log[i], tr[n].log[j]);
  }

  /** What client uid accepted for a gid, in order. */
  function Inbox(log: seq<Delivery>, uid: Uid, gid: Gid): seq<Delivery> {
    if log == [] then []
    else
      var d := log[|log| - 1];
      Inbox(log[..|log| - 1], uid, gid) + if d.uid == uid && d.gid == gid && d.accepted then [d] else []
  }

  /** Strictly in the order in which the messages entered group channels. */
  predicate Rising(b: seq<Delivery>) {
    forall i, j :: 0 <= i < j < |b| ==> b[i].at < b[j].at
  }

  lemma {:induction false} InboxFromLog(log: seq<Delivery>, uid: Uid, gid: Gid)
    requires forall i, j :: 0 <= i < j < |log| ==> Ordered(log[i], log[j])
    ensures forall d :: d in Inbox(log, uid, gid) ==> d in log && d.uid == uid && d.gid == gid
    ensures Rising(Inbox(log, uid, gid))
  {
    if log != [] {
      var init, d := log[..|log| - 1], log[|log| - 1];
      InboxFromLog(init, uid, gid);
      var a, b := Inbox(init, uid, gid), Inbox(log, uid, gid);
      forall i, j | 0 <= i < j < |b| ensures b[i].at < b[j].at {
        assert b[i] == a[i] && a[i] in a;
        if j < |a| {
          assert b[j] == a[j];
        } else {
          assert b == a + [d] && d.uid == uid && d.gid == gid;
          var k :| 0 <= k < |init| && init[k] == a[i];
          assert log[k] == init[k] == a[i] && a[i].uid == uid && a[i].gid == gid;
          assert Ordered(log[k], log[|log| - 1]);
          assert b[j] == d;
        }
      }
    }
  }

  /** A client accepts the messages of a gid in the order in which they entered the group's channels,
      across all the objects the gid had, and none of them twice. */
  lemma AcceptedInOrder(tr: seq<State>, n: nat, uid: Uid, gid: Gid)
    requires IsRun(tr) && n < |tr|
    ensures Rising(Inbox(tr[n].log, uid, gid))
  {
    RunIsGood(tr, n);
    InboxFromLog(tr[n].log, uid, gid);
  }

  /** When a fan-out ends, its message has been offered to exactly the users of the group at that
      moment, but for the excluded one. */
  lemma FanOutIsExact(s: State, g: nat)
    requires Good(s) && g < |s.groups| && s.groups[g].listener.Fan? && ListenReady(s, g)
    ensures var e := s.groups[g].listener.e;
      Reached(s.log, g, e.at) == s.groups[g].users - {e.msg.exceptUid}
  {
    assert FanOk(s, g);
  }

  // ---- no leak -----------------------------------------------------------------------------

  /** An empty mapped group has a joiner about to enter it or a leaver about to unmap it. */
  lemma EmptyGroupIsAttended(tr: seq<State>, i: nat, gid: Gid)
    requires IsRun(tr) && i < |tr| && gid in tr[i].mapped
    requires tr[i].mapped[gid] < |tr[i].groups| && tr[i].groups[tr[i].mapped[gid]].users == {}
    ensures exists t :: Attends(tr[i], t, tr[i].mapped[gid])
  {
    RunIsGood(tr, i);
  }

  /** With no call in flight, the group table holds exactly the gids with a member. */
  lemma NoGroupLeaks(tr: seq<State>, i: nat)
    requires IsRun(tr) && i < |tr| && (forall t :: t in tr[i].threads ==> tr[i].threads[t].Post?)
    ensures tr[i].mapped.Keys == TableOf(tr[i]).Keys
  {
    RunIsGood(tr, i);
    var s := tr[i];
    forall k | k in s.mapped ensures k in TableOf(s) {
      assert Refers(s, s.mapped[k], k);
      assert !exists t :: Attends(s, t, s.mapped[k]);
    }
  }

  // ---- agreement with the clients ----------------------------------------------------------

  lemma {:induction false} SerialRunAgrees(tr: seq<State>, i: nat)
    requires IsRun(tr) && i < |tr| && (forall k :: 0 <= k < |tr| ==> Serial(tr[k]))
    ensures Agree(tr[i])
  {
    if i > 0 {
      SerialRunAgrees(tr, i - 1);
      RunIsGood(tr, i - 1);
      assert Linked(tr, i - 1);
      var st :| Enabled(tr[i - 1], st) && tr[i] == Apply(tr[i - 1], st);
      StepKeepsAgree(tr[i - 1], st);
    }
  }

  /** If calls on each client are serialised, then whenever a client has no call in flight, a gid is
      in its own set exactly when the currently mapped group of the gid has it as a user. */
  lemma MembershipAgrees(tr: seq<State>, i: nat, uid: Uid, gid: Gid)
    requires IsRun(tr) && i < |tr| && (forall k :: 0 <= k < |tr| ==> Serial(tr[k])) && Idle(tr[i], uid)
    ensures gid in JoinedBy(tr[i], uid) <==>
      gid in tr[i].mapped && tr[i].mapped[gid] < |tr[i].groups| && uid in tr[i].groups[tr[i].mapped[gid]].users
  {
    SerialRunAgrees(tr, i);
    assert Settled(tr[i], uid, None);
  }
}
