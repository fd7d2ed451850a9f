/** What every step of the group protocol keeps: who holds which lock, and how `State`, the
    manager's map, the users and the channel of a group object agree. */
module GroupInvariant {
  import opened Types
  import opened GroupProtocol

  /** The thread is in the locked part of a leave that emptied group g. */
  predicate Inside(th: Thread, g: nat) {
    th.Leave? && (th.lpc == LUnmap(g) || th.lpc == LKill(g) || th.lpc == LClose(g) || th.lpc == LUnlock(g))
  }

  predicate Refers(s: State, g: nat, gid: Gid) {
    g < |s.groups| && s.groups[g].gid == gid
  }

  predicate Owns(s: State, t: Tid, g: nat, gid: Gid) {
    Refers(s, g, gid) && s.groups[g].lock == Writer(t) && s.groups[g].users == {}
  }

  predicate ThreadOk(s: State, t: Tid)
    requires t in s.threads
  {
    var th := s.threads[t];
    match th
    case Join(_, gid, jpc, _, _) => jpc.JEnter? ==> Refers(s, jpc.g, gid)
    case Leave(uid, gid, all, lpc) =>
      && (all ==> uid in s.held && s.held[uid] == t)
      && (match lpc
          case LLook => true
          case LNote => true
          case LKnock(g) => Refers(s, g, gid)
          case LUnmap(g) => Owns(s, t, g, gid)
          case LKill(g) => Owns(s, t, g, gid) && !IsMapped(s, g)
          case LClose(g) => Owns(s, t, g, gid) && !s.groups[g].alive && s.groups[g].closes == 0
          case LUnlock(g) => Owns(s, t, g, gid) && !s.groups[g].alive && s.groups[g].closes == 1)
    case OutAll(_) => true
    case OutLoop(uid) => uid in s.held && s.held[uid] == t
    case Post(gid, _, ppc) => !ppc.PLook? ==> Refers(s, ppc.g, gid)
  }

  predicate GroupOk(s: State, g: nat)
    requires g < |s.groups|
  {
    var grp := s.groups[g];
    && |grp.chan| <= s.cap
    && (grp.lock.Writer? ==> grp.lock.t in s.threads && Inside(s.threads[grp.lock.t], g))
    && (grp.lock.Reader? <==> grp.listener.Fan?)
    && (grp.listener.Fan? ==> grp.alive)
    && (!grp.alive ==> grp.users == {} && !IsMapped(s, g))
    && (grp.alive && !IsMapped(s, g) ==> grp.lock.Writer? && s.threads[grp.lock.t].lpc == LKill(g))
    && grp.closes == (if grp.alive || (grp.lock.Writer? && s.threads[grp.lock.t].lpc == LClose(g)) then 0 else 1)
    && (grp.listener.TearUnmap? || grp.listener.TearClose? || grp.listener.Exited? ==> grp.closes == 1)
    && (grp.gid in s.mapped ==> g <= s.mapped[grp.gid])
  }

  predicate MapOk(s: State) {
    forall k :: k in s.mapped ==> Refers(s, s.mapped[k], k)
  }

  predicate HeldOk(s: State) {
    forall u :: u in s.held ==>
      s.held[u] in s.threads &&
      var th := s.threads[s.held[u]];
      th == OutLoop(u) || (th.Leave? && th.all && th.uid == u)
  }

  predicate Inv(s: State) {
    && s.cap > 0
    && MapOk(s)
    && HeldOk(s)
    && (forall t :: t in s.threads ==> ThreadOk(s, t))
    && (forall g: nat :: g < |s.groups| ==> GroupOk(s, g))
  }

  /** From s to s' at most thread t and group g change; what the lock owner of g relies on changes
      only if t is that owner. */
  ghost predicate Local(s: State, s': State, t: Tid, g: nat) {
    && s'.cap == s.cap && |s.groups| <= |s'.groups| <= |s.groups| + 1
    && (|s'.groups| > |s.groups| ==> g == |s.groups|)
    && (forall h: nat :: h < |s.groups| ==> s'.groups[h].gid == s.groups[h].gid)
    && (forall h: nat :: h < |s.groups| && h != g ==>
      s'.groups[h] == s.groups[h] && (IsMapped(s', h) <==> IsMapped(s, h)))
    && (forall u :: u != t ==>
      ((u in s'.threads <==> u in s.threads) && (u in s.threads ==> s'.threads[u] == s.threads[u])))
    && (forall x :: x in s.held && s.held[x] != t ==> x in s'.held && s'.held[x] == s.held[x])
    && (g < |s.groups| && s.groups[g].lock.Writer? && s.groups[g].lock.t != t ==>
          var a, b := s.groups[g], s'.groups[g];
          a.lock == b.lock && a.users == b.users && a.alive == b.alive && a.closes == b.closes &&
            (IsMapped(s', g) <==> IsMapped(s, g)))
    && (forall h: nat :: h < |s.groups| && h != g ==> s.groups[h].lock != Writer(t))
  }

  lemma ThreadFrame(s: State, s': State, t: Tid, g: nat, u: Tid)
    requires Local(s, s', t, g) && u != t && u in s.threads && ThreadOk(s, u)
    ensures ThreadOk(s', u)
  {
  }

  lemma GroupFrame(s: State, s': State, t: Tid, g: nat, h: nat)
    requires Local(s, s', t, g) && h != g && h < |s.groups| && GroupOk(s, h)
    requires s.groups[h].gid in s'.mapped ==> h <= s'.mapped[s.groups[h].gid]
    ensures GroupOk(s', h)
  {
  }

  /** An unmapped gid may be mapped to a new object, which is the newest of all. */
  predicate MapGrows(s: State, s': State) {
    && MapOk(s')
    && forall k :: k in s'.mapped ==> (k in s.mapped && s'.mapped[k] == s.mapped[k]) || s'.mapped[k] == |s.groups|
  }

  lemma LocalStep(s: State, s': State, t: Tid, g: nat)
    requires Inv(s) && Local(s, s', t, g) && MapGrows(s, s') && HeldOk(s')
    requires t in s'.threads ==> ThreadOk(s', t)
    requires g < |s'.groups| ==> GroupOk(s', g)
    ensures Inv(s')
  {
    forall u | u in s'.threads ensures ThreadOk(s', u) {
      if u != t { ThreadFrame(s, s', t, g, u); }
    }
    forall h: nat | h < |s'.groups| ensures GroupOk(s', h) {
      if h != g {
        assert GroupOk(s, h);
        GroupFrame(s, s', t, g, h);
      }
    }
  }

  predicate Locked(th: Thread) {
    th.Leave? && (th.lpc.LUnmap? || th.lpc.LKill? || th.lpc.LClose? || th.lpc.LUnlock?)
  }

  lemma NotOwner(s: State, t: Tid)
    requires Inv(s) && (t in s.threads ==> !Locked(s.threads[t]))
    ensures forall h: nat :: h < |s.groups| ==> s.groups[h].lock != Writer(t)
  {
    forall h: nat | h < |s.groups| ensures s.groups[h].lock != Writer(t) { assert GroupOk(s, h); }
  }

  /** A step of thread t outside any locked part that leaves all groups and the map alone. */
  lemma ThreadStep(s: State, s': State, t: Tid)
    requires Inv(s) && s'.cap == s.cap && s'.groups == s.groups && s'.mapped == s.mapped && HeldOk(s')
    requires t in s.threads ==> !Locked(s.threads[t])
    requires s'.threads - {t} == s.threads - {t}
    requires forall x :: x in s.held && s.held[x] != t ==> x in s'.held && s'.held[x] == s.held[x]
    requires t in s'.threads ==> ThreadOk(s', t)
    ensures Inv(s')
  {
    NotOwner(s, t);
    forall u | u != t
      ensures (u in s'.threads <==> u in s.threads) && (u in s.threads ==> s'.threads[u] == s.threads[u]) {
      assert u in s.threads - {t} <==> u in s'.threads - {t};
      assert u in s.threads ==> (s.threads - {t})[u] == (s'.threads - {t})[u];
    }
    LocalStep(s, s', t, |s.groups|);
  }

  /** A step of thread t that changes group g but not the map. */
  lemma GroupStep(s: State, s': State, t: Tid, g: nat, grp: Group, th: Thread)
    requires Inv(s) && g < |s.groups| && grp.gid == s.groups[g].gid
    requires t in s.threads && (Locked(s.threads[t]) ==> s.threads[t].lpc.g == g)
    requires s' == SetThread(SetGroup(s, g, grp), t, th)
    requires s.groups[g].lock == Writer(t) || s.groups[g].lock.Free?
    requires th.Leave? && th.all ==> s.threads[t].Leave? && s.threads[t].all && th.uid == s.threads[t].uid
    requires s.threads[t].Leave? && s.threads[t].all ==> th.Leave? && th.all && th.uid == s.threads[t].uid
    requires !s.threads[t].OutLoop?
    requires ThreadOk(s', t) && GroupOk(s', g)
    ensures Inv(s')
  {
    forall h: nat | h < |s.groups| && h != g ensures s.groups[h].lock != Writer(t) { assert GroupOk(s, h); }
    LocalStep(s, s', t, g);
  }

  lemma CreateKeepsInv(s: State, t: Tid)
    requires Inv(s) && t in s.threads && s.threads[t].Join? && s.threads[t].jpc.JMake?
    requires s.threads[t].gid !in s.mapped
    ensures Inv(JoinStep(s, t, s.threads[t]))
  {
    NotOwner(s, t);
    LocalStep(s, JoinStep(s, t, s.threads[t]), t, |s.groups|);
  }

  lemma EnterKeepsInv(s: State, t: Tid, g: nat)
    requires Inv(s) && t in s.threads && s.threads[t].Join? && s.threads[t].jpc == JEnter(g) &&
      JoinReady(s, s.threads[t])
    requires s.groups[g].alive
    ensures Inv(JoinStep(s, t, s.threads[t]))
  {
    assert ThreadOk(s, t) && GroupOk(s, g);
    var s' := JoinStep(s, t, s.threads[t]);
    GroupStep(s, s', t, g, s'.groups[g], s'.threads[t]);
  }

  lemma JoinKeepsInv(s: State, t: Tid)
    requires Inv(s) && t in s.threads && s.threads[t].Join? && JoinReady(s, s.threads[t])
    ensures Inv(JoinStep(s, t, s.threads[t]))
  {
    var th := s.threads[t];
    if th.jpc.JMake? && th.gid !in s.mapped {
      CreateKeepsInv(s, t);
    } else if th.jpc.JEnter? && s.groups[th.jpc.g].alive {
      EnterKeepsInv(s, t, th.jpc.g);
    } else {
      assert ThreadOk(s, t);
      ThreadStep(s, JoinStep(s, t, th), t);
    }
  }

  lemma KnockKeepsInv(s: State, t: Tid, g: nat)
    requires Inv(s) && t in s.threads && s.threads[t].Leave? && LeaveReady(s, s.threads[t])
    requires s.threads[t].lpc == LKnock(g)
    ensures Inv(LeaveStep(s, t, s.threads[t]))
  {
    assert ThreadOk(s, t) && GroupOk(s, g);
    var s' := LeaveStep(s, t, s.threads[t]);
    GroupStep(s, s', t, g, s'.groups[g], s'.threads[t]);
  }

  lemma UnmapKeepsInv(s: State, t: Tid)
    requires Inv(s) && t in s.threads && s.threads[t].Leave? && s.threads[t].lpc.LUnmap?
    requires LeaveReady(s, s.threads[t])
    ensures Inv(LeaveStep(s, t, s.threads[t]))
  {
    var s', g := LeaveStep(s, t, s.threads[t]), s.threads[t].lpc.g;
    assert ThreadOk(s, t) && GroupOk(s, g);
    forall h: nat | h < |s.groups| && h != g ensures s.groups[h].lock != Writer(t) { assert GroupOk(s, h); }
    LocalStep(s, s', t, g);
  }

  lemma LockedKeepsInv(s: State, t: Tid, g: nat)
    requires Inv(s) && t in s.threads && Locked(s.threads[t]) && !s.threads[t].lpc.LUnmap? && s.threads[t].lpc.g == g
    requires LeaveReady(s, s.threads[t])
    ensures Inv(LeaveStep(s, t, s.threads[t]))
  {
    assert ThreadOk(s, t) && GroupOk(s, g);
    var s' := LeaveStep(s, t, s.threads[t]);
    assert s'.groups == s.groups[g := s'.groups[g]];
    GroupStep(s, s', t, g, s'.groups[g], s'.threads[t]);
  }

  lemma LeaveKeepsInv(s: State, t: Tid)
    requires Inv(s) && t in s.threads && s.threads[t].Leave? && LeaveReady(s, s.threads[t])
    ensures Inv(LeaveStep(s, t, s.threads[t]))
  {
    assert ThreadOk(s, t);
    match s.threads[t].lpc
    case LKnock(g) => KnockKeepsInv(s, t, g);
    case LUnmap(_) => UnmapKeepsInv(s, t);
    case LLook => ThreadStep(s, LeaveStep(s, t, s.threads[t]), t);
    case LNote => ThreadStep(s, LeaveStep(s, t, s.threads[t]), t);
    case _ => LockedKeepsInv(s, t, s.threads[t].lpc.g);
  }

  lemma PushKeepsInv(s: State, t: Tid)
    requires Inv(s) && t in s.threads && s.threads[t].Post? && s.threads[t].ppc.PPush? && PostReady(s, s.threads[t])
    requires s.groups[s.threads[t].ppc.g].closes == 0
    ensures Inv(PostStep(s, t, s.threads[t]))
  {
    var s', g := PostStep(s, t, s.threads[t]), s.threads[t].ppc.g;
    NotOwner(s, t);
    assert GroupOk(s, g);
    LocalStep(s, s', t, g);
  }

  lemma PostKeepsInv(s: State, t: Tid)
    requires Inv(s) && t in s.threads && s.threads[t].Post? && PostReady(s, s.threads[t])
    ensures Inv(PostStep(s, t, s.threads[t]))
  {
    assert ThreadOk(s, t);
    if s.threads[t].ppc.PPush? && s.groups[s.threads[t].ppc.g].closes == 0 {
      PushKeepsInv(s, t);
    } else {
      ThreadStep(s, PostStep(s, t, s.threads[t]), t);
    }
  }

  /** A step of a listener, which is none of the numbered threads. */
  lemma ListenerStep(s: State, s': State, g: nat, t: Tid)
    requires Inv(s) && g < |s.groups| == |s'.groups| && t !in s.threads
    requires s'.cap == s.cap && s'.threads == s.threads && s'.held == s.held && s'.mapped == s.mapped
    requires s'.groups == s.groups[g := s'.groups[g]]
    requires s.groups[g].(listener := s'.groups[g].listener, lock := s'.groups[g].lock, chan := s'.groups[g].chan) ==
      s'.groups[g]
    requires s.groups[g].lock.Writer? ==> s'.groups[g].lock == s.groups[g].lock
    requires GroupOk(s', g)
    ensures Inv(s')
  {
    NotOwner(s, t);
    LocalStep(s, s', t, g);
  }

  /** A thread number no thread uses. */
  lemma FreshTid(s: State) returns (t: Tid)
    ensures t !in s.threads
  {
    t := 0;
    while t in s.threads
      invariant forall x: Tid :: x < t ==> x in s.threads
      decreases |s.threads.Keys - set x | x in s.threads && x < t|
    {
      assert t in s.threads.Keys - set x | x in s.threads && x < t;
      assert (s.threads.Keys - set x | x in s.threads && x < t + 1)
          == (s.threads.Keys - set x | x in s.threads && x < t) - {t};
      t := t + 1;
    }
  }

  lemma ListenKeepsInv(s: State, g: nat)
    requires Inv(s) && g < |s.groups| && ListenReady(s, g)
    ensures Inv(ListenStep(s, g))
  {
    var t := FreshTid(s);
    assert GroupOk(s, g);
    ListenerStep(s, ListenStep(s, g), g, t);
  }

  lemma RunKeepsInv(s: State, t: Tid)
    requires Inv(s) && t in s.threads && RunReady(s, s.threads[t])
    ensures Inv(RunStep(s, t, s.threads[t]))
  {
    assert ThreadOk(s, t);
    match s.threads[t]
    case Join(_, _, _, _, _) => JoinKeepsInv(s, t);
    case Leave(_, _, _, _) => LeaveKeepsInv(s, t);
    case Post(_, _, _) => PostKeepsInv(s, t);
    case _ => ThreadStep(s, RunStep(s, t, s.threads[t]), t);
  }

  lemma StepKeepsInv(s: State, st: Step)
    requires Inv(s) && Enabled(s, st)
    ensures Inv(Apply(s, st))
  {
    match st
    case Run(t) => RunKeepsInv(s, t);
    case Listen(g) => ListenKeepsInv(s, g);
    case Deliver(g, _, _) =>
      var t := FreshTid(s);
      assert GroupOk(s, g);
      ListenerStep(s, Apply(s, st), g, t);
    case RunOut(t, _) =>
      assert ThreadOk(s, t);
      ThreadStep(s, Apply(s, st), t);
    case _ => ThreadStep(s, Apply(s, st), st.t);
  }
}
