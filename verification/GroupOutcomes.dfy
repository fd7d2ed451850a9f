/** What calls and listeners of the group protocol achieve, over every run: a message posted is queued,
    a queued message is fanned out, a call that has returned has done its work. */
module GroupOutcomes {
  import opened Types
  import opened GroupProtocol
  import opened GroupInvariant
  import opened GroupHistory
  import opened GroupMembership
  import opened GroupFanOut
  import opened GroupTheorems

  // ---- a queued message is fanned out ------------------------------------------------------

  lemma RunKeepsPending(s: State, t: Tid, g: nat)
    requires t in s.threads && RunReady(s, s.threads[t]) && g < |s.groups|
    ensures var s' := RunStep(s, t, s.threads[t]);
      && g < |s'.groups| && s'.groups[g].listener == s.groups[g].listener && s.groups[g].chan <= s'.groups[g].chan
  {
    var th := s.threads[t];
    if th.Leave? { LeaveMovesOn(s, t, th); }
  }

  /** No step but the listener's own takes anything out of a group's hands. */
  lemma StepKeepsPending(s: State, st: Step, g: nat)
    requires Enabled(s, st) && g < |s.groups| && st != Listen(g)
    ensures g < |Apply(s, st).groups| && Pending(s.groups[g]) <= Pending(Apply(s, st).groups[g])
  {
    match st
    case Run(t) => RunKeepsPending(s, t, g);
    case Listen(h) => ListenMovesOn(s, h);
    case _ =>
  }

  /** Everybody in the group but the excluded user has been offered the message. */
  predicate FannedOut(s: State, g: nat, e: Entry)
    requires g < |s.groups|
  {
    Reached(s.log, g, e.at) == s.groups[g].users - {e.msg.exceptUid}
  }

  lemma ListenDrops(s: State, g: nat, e: Entry)
    requires Good(s) && g < |s.groups| && ListenReady(s, g) && e in Pending(s.groups[g])
    ensures e in Pending(ListenStep(s, g).groups[g]) || !s.groups[g].alive || FannedOut(s, g, e)
  {
    assert FanOk(s, g);
    var grp, grp' := s.groups[g], ListenStep(s, g).groups[g];
    if grp.listener.Receive? && grp.chan != [] {
      assert Pending(grp') == [grp.chan[0]] + grp.chan[1..] == Pending(grp);
    } else if grp.listener.Fan? {
      assert e in grp.chan ==> e in Pending(grp');
    }
  }

  lemma StepDrops(s: State, st: Step, g: nat, e: Entry)
    requires Good(s) && Enabled(s, st) && g < |s.groups| && e in Pending(s.groups[g])
    ensures g < |Apply(s, st).groups|
    ensures e in Pending(Apply(s, st).groups[g]) || !s.groups[g].alive || FannedOut(s, g, e)
  {
    if st == Listen(g) { ListenDrops(s, g, e); } else { StepKeepsPending(s, st, g); }
  }

  lemma DropsAt(tr: seq<State>, i: nat, g: nat, e: Entry)
    requires IsRun(tr) && i + 1 < |tr| && g < |tr[i].groups| && e in Pending(tr[i].groups[g])
    ensures g < |tr[i + 1].groups|
    ensures e in Pending(tr[i + 1].groups[g]) || !tr[i].groups[g].alive || FannedOut(tr[i], g, e)
  {
    RunIsGood(tr, i);
    assert Linked(tr, i);
    var st :| Enabled(tr[i], st) && tr[i + 1] == Apply(tr[i], st);
    StepDrops(tr[i], st, g, e);
  }

  /** A message queued in a group and no longer there has left at some step in between; and at that step
      the group was dead, or the message had been offered to exactly its users at that moment but for
      the excluded one. */
  lemma {:induction false} NothingIsDropped(tr: seq<State>, i: nat, j: nat, g: nat, e: Entry) returns (k: nat)
    requires IsRun(tr) && i < j < |tr| && g < |tr[i].groups| && e in Pending(tr[i].groups[g])
    requires g < |tr[j].groups| && e !in Pending(tr[j].groups[g])
    ensures i <= k < j && g < |tr[k].groups| && g < |tr[k + 1].groups|
    ensures e in Pending(tr[k].groups[g]) && e !in Pending(tr[k + 1].groups[g])
    ensures !tr[k].groups[g].alive || FannedOut(tr[k], g, e)
    decreases j - i
  {
    DropsAt(tr, i, g, e);
    if e !in Pending(tr[i + 1].groups[g]) { k := i; } else { k := NothingIsDropped(tr, i + 1, j, g, e); }
  }

  // ---- a posted message is queued ----------------------------------------------------------

  /** No step but its own changes a call. */
  lemma OtherThreads(s: State, st: Step, t: Tid)
    requires Enabled(s, st) && t in s.threads && st != Run(t) && !(st.RunOut? && st.t == t)
    ensures t in Apply(s, st).threads && Apply(s, st).threads[t] == s.threads[t]
  {
    match st
    case Run(u) => RunOthersSame(s, u);
    case Listen(g) => ListenMovesOn(s, g);
    case _ =>
  }

  /** A call that has changed or gone has taken its own step. */
  lemma OwnStepOf(s: State, s': State, t: Tid) returns (st: Step)
    requires Next(s, s') && t in s.threads && (t !in s'.threads || s'.threads[t] != s.threads[t])
    ensures Enabled(s, st) && s' == Apply(s, st) && (st == Run(t) || (st.RunOut? && st.t == t))
  {
    st :| Enabled(s, st) && s' == Apply(s, st);
    if st != Run(t) && !(st.RunOut? && st.t == t) { OtherThreads(s, st, t); }
  }

  /** The message is the last in the group's hands, once more than before; no other group changes. */
  ghost predicate QueuedLast(s: State, s': State, g: nat, m: GroupMsg) {
    && g < |s.groups| == |s'.groups| && (forall h: nat :: h < |s.groups| && h != g ==> s'.groups[h] == s.groups[h])
    && Pending(s'.groups[g]) == Pending(s.groups[g]) + [Entry(s.clock, m)] && s'.clock > s.clock
  }

  lemma PushQueues(s: State, t: Tid, g: nat)
    requires t in s.threads && s.threads[t].Post? && s.threads[t].ppc == PPush(g) && PostReady(s, s.threads[t])
    requires s.groups[g].closes == 0
    ensures QueuedLast(s, PostStep(s, t, s.threads[t]), g, s.threads[t].msg)
  {
    var s', e := PostStep(s, t, s.threads[t]), Entry(s.clock, s.threads[t].msg);
    var a, b := s.groups[g], s'.groups[g];
    assert Pending(b) == InHand(a) + (a.chan + [e]) == Pending(a) + [e];
  }

  /** A post that returns has found its gid unmapped, or the group it found dead or closed, and then
      changes no group; or it has put its message, exclusion included, last in that group's queue. */
  lemma PostEnds(tr: seq<State>, i: nat, t: Tid)
    requires IsRun(tr) && i + 1 < |tr| && t in tr[i].threads && tr[i].threads[t].Post? && t !in tr[i + 1].threads
    ensures var s, s', th := tr[i], tr[i + 1], tr[i].threads[t];
      match th.ppc
      case PLook => th.pgid !in s.mapped && s'.groups == s.groups
      case PCheck(g) => Refers(s, g, th.pgid) && !s.groups[g].alive && s'.groups == s.groups
      case PPush(g) =>
        Refers(s, g, th.pgid) && if s.groups[g].closes > 0 then s'.groups == s.groups else QueuedLast(s, s', g, th.msg)
  {
    var s, th := tr[i], tr[i].threads[t];
    RunIsGood(tr, i);
    assert Linked(tr, i) && ThreadOk(s, t);
    var st := OwnStepOf(s, tr[i + 1], t);
    if th.ppc.PPush? && s.groups[th.ppc.g].closes == 0 { PushQueues(s, t, th.ppc.g); }
  }

  /** Until it returns, a post keeps its gid and its message and changes no group; and it goes on from
      the lookup only with the group mapped, and from the check only if that group is live. */
  lemma PostGoesOn(tr: seq<State>, i: nat, t: Tid)
    requires IsRun(tr) && i + 1 < |tr| && t in tr[i].threads && tr[i].threads[t].Post? && t in tr[i + 1].threads
    ensures var s, s', th, th' := tr[i], tr[i + 1], tr[i].threads[t], tr[i + 1].threads[t];
      && th'.Post? && th'.pgid == th.pgid && th'.msg == th.msg
      && (th' != th ==>
            && s'.groups == s.groups
            && ((th.ppc.PLook? && th.pgid in s.mapped && th'.ppc == PCheck(s.mapped[th.pgid])) ||
                (th.ppc.PCheck? && th.ppc.g < |s.groups| && s.groups[th.ppc.g].alive && th'.ppc == PPush(th.ppc.g))))
  {
    assert Linked(tr, i);
    if tr[i + 1].threads[t] != tr[i].threads[t] { var st := OwnStepOf(tr[i], tr[i + 1], t); }
  }

  // ---- calls on clients --------------------------------------------------------------------

  lemma IdleAfter(tr: seq<State>, i: nat, t: Tid, uid: Uid)
    requires IsRun(tr) && i + 1 < |tr| && Serial(tr[i])
    requires t in tr[i].threads && !tr[i].threads[t].Post? && tr[i].threads[t].uid == uid && t !in tr[i + 1].threads
    ensures Idle(tr[i + 1], uid)
  {
    assert Linked(tr, i);
    var st := OwnStepOf(tr[i], tr[i + 1], t);
    RunOthersSame(tr[i], t);
    var s' := tr[i + 1];
    forall u | u in s'.threads ensures s'.threads[u].Post? || s'.threads[u].uid != uid {
      OnlyCall(tr[i], t, u);
    }
  }

  ghost predicate IsSerialRun(tr: seq<State>) {
    IsRun(tr) && forall k :: 0 <= k < |tr| ==> Serial(tr[k])
  }

  /** The user is in the group: the mapped group of the gid has it, and its client notes the gid. */
  ghost predicate InGroup(s: State, uid: Uid, gid: Gid) {
    gid in JoinedBy(s, uid) && uid in MembersOf(TableOf(s), gid)
  }

  ghost predicate OutOfGroup(s: State, uid: Uid, gid: Gid) {
    gid !in JoinedBy(s, uid) && uid !in MembersOf(TableOf(s), gid)
  }

  /** With calls on each client serialised: when a join has returned the user is in the group, when a
      leave has returned it is not, and when a leave-all has returned it is in no group. */
  lemma CallsDoTheirWork(tr: seq<State>, i: nat, t: Tid)
    requires IsSerialRun(tr) && i + 1 < |tr| && t in tr[i].threads && t !in tr[i + 1].threads && !tr[i].threads[t].Post?
    ensures var s', th := tr[i + 1], tr[i].threads[t];
      && (th.Join? ==> InGroup(s', th.uid, th.gid))
      && (th.Leave? ==> OutOfGroup(s', th.uid, th.gid))
      && (th.OutLoop? ==> JoinedBy(s', th.uid) == {} && forall k :: OutOfGroup(s', th.uid, k))
  {
    var th := tr[i].threads[t];
    assert Linked(tr, i);
    var st := OwnStepOf(tr[i], tr[i + 1], t);
    IdleAfter(tr, i, t, th.uid);
    SerialRunAgrees(tr, i + 1);
    assert Settled(tr[i + 1], th.uid, None);
    SettledMeans(tr[i + 1], th.uid);
    NotedWhenDone(tr[i], t);
  }

  lemma SettledMeans(s: State, uid: Uid)
    requires Settled(s, uid, None)
    ensures forall k :: k in JoinedBy(s, uid) <==> uid in MembersOf(TableOf(s), k)
  {
    forall k ensures k in JoinedBy(s, uid) <==> uid in MembersOf(TableOf(s), k) {
      assert k in GidsOf(TableOf(s), uid) <==> k in JoinedBy(s, uid);
    }
  }

  lemma NotedWhenDone(s: State, t: Tid)
    requires t in s.threads && RunReady(s, s.threads[t]) && t !in RunStep(s, t, s.threads[t]).threads
    ensures var s', th := RunStep(s, t, s.threads[t]), s.threads[t];
      && (th.Join? ==> th.gid in JoinedBy(s', th.uid))
      && (th.Leave? ==> !th.all && th.gid !in JoinedBy(s', th.uid))
      && !th.OutAll? && (th.OutLoop? ==> JoinedBy(s', th.uid) == {})
  {
    var th := s.threads[t];
    if th.Leave? && !th.lpc.LNote? { LeaveMovesOn(s, t, th); }
  }

  /** While a leave-all holds a client's group lock, nobody else changes the client's set. */
  lemma LeaveAllIsAlone(tr: seq<State>, i: nat, uid: Uid)
    requires IsRun(tr) && i + 1 < |tr| && uid in tr[i].held && JoinedBy(tr[i + 1], uid) != JoinedBy(tr[i], uid)
    ensures var t := tr[i].held[uid];
      t in tr[i].threads && (t !in tr[i + 1].threads || tr[i + 1].threads[t] != tr[i].threads[t])
    ensures JoinedBy(tr[i + 1], uid) < JoinedBy(tr[i], uid)
  {
    RunIsGood(tr, i);
    assert Linked(tr, i);
    var st :| Enabled(tr[i], st) && tr[i + 1] == Apply(tr[i], st);
    JoinedChanges(tr[i], st, uid);
    assert ThreadOk(tr[i], st.t);
  }

  lemma JoinedChanges(s: State, st: Step, uid: Uid)
    requires Enabled(s, st) && uid in s.held && JoinedBy(Apply(s, st), uid) != JoinedBy(s, uid)
    ensures st.Run? && s.threads[st.t].Leave? && s.threads[st.t].all && s.threads[st.t].lpc.LNote?
    ensures s.threads[st.t].uid == uid && JoinedBy(Apply(s, st), uid) < JoinedBy(s, uid)
    ensures st.t !in Apply(s, st).threads || Apply(s, st).threads[st.t] != s.threads[st.t]
  {
    match st
    case Run(t) =>
      var th := s.threads[t];
      if th.Leave? && !th.lpc.LNote? { LeaveMovesOn(s, t, th); }
    case Listen(g) => ListenMovesOn(s, g);
    case _ =>
  }

  // ---- retries -----------------------------------------------------------------------------

  /** A join that began at step i has retried, by state j, no more often than groups of its gid have died
      since. */
  lemma RetriesDuringCall(tr: seq<State>, i: nat, j: nat, t: Tid)
    requires IsRun(tr) && i < j < |tr| && t !in tr[i].threads && (forall k :: i < k <= j ==> t in tr[k].threads)
    requires tr[i + 1].threads[t].Join?
    ensures tr[j].threads[t].Join? && tr[j].threads[t].gid == tr[i + 1].threads[t].gid
    ensures |tr[j].threads[t].met| <= |DiedSince(tr[j], tr[j].threads[t].gid, DeadGroups(tr[i]))|
  {
    assert Linked(tr, i);
    StartsFresh(tr[i], tr[i + 1], t);
    CallLasts(tr, i + 1, j, t);
    RetriesAreBounded(tr, j, t);
  }

  lemma StartsFresh(s: State, s': State, t: Tid)
    requires Next(s, s') && t !in s.threads && t in s'.threads && s'.threads[t].Join?
    ensures s'.threads[t].deadBefore == DeadGroups(s) && s'.threads[t].met == []
  {
    var st :| Enabled(s, st) && s' == Apply(s, st);
    match st
    case Run(u) => RunOthersSame(s, u);
    case Listen(g) => ListenMovesOn(s, g);
    case _ =>
  }

  // ---- the end of a listener ---------------------------------------------------------------

  /** With its channel closed and drained the listener ends after three steps of its own, and leaves
      everything else as it was. */
  lemma ListenerEnds(s: State, g: nat)
    requires Good(s) && g < |s.groups|
    requires s.groups[g].listener.Receive? && s.groups[g].chan == [] && s.groups[g].closes > 0
    ensures ListenReady(s, g)
    ensures var s1 := ListenStep(s, g);
      && g < |s1.groups| && ListenReady(s1, g)
      && var s2 := ListenStep(s1, g);
         && g < |s2.groups| && ListenReady(s2, g)
         && ListenStep(s2, g) == SetGroup(s, g, s.groups[g].(listener := Exited))
  {
    assert GroupOk(s, g);
    var grp := s.groups[g];
    var s1 := SetGroup(s, g, grp.(listener := TearUnmap));
    assert ListenStep(s, g) == s1;
    assert ListenStep(s1, g) == SetGroup(s, g, grp.(listener := TearClose));
  }
}
