/** What runs of the group protocol keep beyond the lock discipline: the bookkeeping of retrying
    joins, the order of deliveries, and that no empty group stays mapped unattended. */
module GroupHistory {
  import opened Types
  import opened GroupProtocol
  import opened GroupInvariant

  // ---- what no step undoes -----------------------------------------------------------------

  /** Group objects are only added; their gid and birth never change; a dead one stays dead. */
  predicate Grows(s: State, s': State) {
    && |s.groups| <= |s'.groups|
    && forall g: nat :: g < |s.groups| ==>
         && s'.groups[g].gid == s.groups[g].gid && s'.groups[g].born == s.groups[g].born
         && (s'.groups[g].alive ==> s.groups[g].alive)
         && s.groups[g].closes <= s'.groups[g].closes
  }

  lemma SetGrows(s: State, s': State, g: nat, grp: Group)
    requires g < |s.groups| && s'.groups == s.groups[g := grp]
    requires grp.gid == s.groups[g].gid && grp.born == s.groups[g].born && s.groups[g].closes <= grp.closes
    requires grp.alive ==> s.groups[g].alive
    ensures Grows(s, s')
  {
  }

  ghost predicate OthersSame(s: State, s': State, t: Tid) {
    forall u :: u != t ==> ((u in s'.threads <==> u in s.threads) && (u in s.threads ==> s'.threads[u] == s.threads[u]))
  }

  /** Queues, listeners and deliveries are as before. */
  predicate SameQueues(s: State, s': State) {
    && s'.clock == s.clock && s'.log == s.log && |s'.groups| == |s.groups|
    && forall g: nat :: g < |s.groups| ==>
         var a, b := s.groups[g], s'.groups[g];
         b.gid == a.gid && b.born == a.born && b.chan == a.chan && b.listener == a.listener
  }

  /** A leave moves on and stays the same leave; nothing is queued, delivered or noted. */
  ghost predicate LeaveMoves(s: State, s': State, t: Tid) {
    && OthersSame(s, s', t) && t in s.threads && t in s'.threads && s.threads[t].Leave? && s'.threads[t].Leave?
    && s'.threads[t] == s.threads[t].(lpc := s'.threads[t].lpc)
    && s'.joined == s.joined && s'.held == s.held && SameQueues(s, s')
    && (forall k :: k in s'.mapped ==> k in s.mapped && s'.mapped[k] == s.mapped[k])
  }

  lemma LockedMoves(s: State, t: Tid, th: Thread, g: nat)
    requires t in s.threads && s.threads[t] == th && Locked(th) && g < |s.groups|
    ensures LeaveMoves(s, LockedStep(s, t, th, g), t)
    ensures Grows(s, LockedStep(s, t, th, g))
  {
    SetGrows(s, LockedStep(s, t, th, g), g, LockedStep(s, t, th, g).groups[g]);
  }

  lemma KnockMoves(s: State, t: Tid, th: Thread, g: nat)
    requires t in s.threads && s.threads[t] == th && th.Leave? && g < |s.groups|
    ensures LeaveMoves(s, KnockStep(s, t, th, g), t)
    ensures Grows(s, KnockStep(s, t, th, g))
  {
    SetGrows(s, KnockStep(s, t, th, g), g, KnockStep(s, t, th, g).groups[g]);
  }

  lemma LeaveMovesOn(s: State, t: Tid, th: Thread)
    requires t in s.threads && s.threads[t] == th && th.Leave? && LeaveReady(s, th)
    ensures !th.lpc.LNote? ==> LeaveMoves(s, LeaveStep(s, t, th), t)
    ensures Grows(s, LeaveStep(s, t, th))
  {
    match th.lpc
    case LLook =>
    case LKnock(g) => KnockMoves(s, t, th, g);
    case LNote =>
    case _ => LockedMoves(s, t, th, th.lpc.g);
  }

  /** A listener moves on: no call, no client set and no user changes, and nothing is mapped anew. */
  predicate ListenerMoves(s: State, s': State, g: nat) {
    && s'.threads == s.threads && s'.joined == s.joined && s'.held == s.held && s'.cap == s.cap
    && s'.clock == s.clock && s'.log == s.log
    && g < |s.groups| && |s'.groups| == |s.groups| && s'.groups == s.groups[g := s'.groups[g]]
    && s'.groups[g].users == s.groups[g].users
    && (forall k :: k in s'.mapped ==> k in s.mapped && s'.mapped[k] == s.mapped[k])
  }

  lemma ListenMovesOn(s: State, g: nat)
    requires g < |s.groups| && ListenReady(s, g)
    ensures ListenerMoves(s, ListenStep(s, g), g)
    ensures Grows(s, ListenStep(s, g))
  {
    SetGrows(s, ListenStep(s, g), g, ListenStep(s, g).groups[g]);
  }

  /** A join moves on and stays the same join; no client set changes and no gid is mapped elsewhere. */
  ghost predicate JoinMoves(s: State, s': State, t: Tid) {
    && OthersSame(s, s', t) && t in s.threads && t in s'.threads && s.threads[t].Join? && s'.threads[t].Join?
    && s'.threads[t].uid == s.threads[t].uid && s'.threads[t].gid == s.threads[t].gid
    && s'.joined == s.joined && s'.held == s.held
    && (forall k :: k in s.mapped ==> k in s'.mapped && s'.mapped[k] == s.mapped[k])
  }

  lemma JoinMovesOn(s: State, t: Tid, th: Thread)
    requires t in s.threads && s.threads[t] == th && th.Join? && JoinReady(s, th) && !th.jpc.JNote?
    ensures JoinMoves(s, JoinStep(s, t, th), t)
    ensures JoinStep(s, t, th).threads[t].jpc.JNote? <==> th.jpc.JEnter? && s.groups[th.jpc.g].alive
  {
  }

  lemma JoinGrows(s: State, t: Tid, th: Thread)
    requires th.Join? && JoinReady(s, th)
    ensures Grows(s, JoinStep(s, t, th))
  {
    if th.jpc.JEnter? { SetGrows(s, JoinStep(s, t, th), th.jpc.g, JoinStep(s, t, th).groups[th.jpc.g]); }
  }

  lemma PostGrows(s: State, t: Tid, th: Thread)
    requires th.Post? && PostReady(s, th)
    ensures Grows(s, PostStep(s, t, th))
  {
  }

  lemma RunGrows(s: State, t: Tid, th: Thread)
    requires t in s.threads && s.threads[t] == th && RunReady(s, th)
    ensures Grows(s, RunStep(s, t, th))
  {
    match th
    case Join(_, _, _, _, _) => JoinGrows(s, t, th);
    case Leave(_, _, _, _) => LeaveMovesOn(s, t, th);
    case Post(_, _, _) => PostGrows(s, t, th);
    case _ =>
  }

  lemma StepGrows(s: State, st: Step)
    requires Enabled(s, st)
    ensures Grows(s, Apply(s, st))
  {
    var s' := Apply(s, st);
    match st
    case Listen(g) => ListenMovesOn(s, g);
    case Deliver(g, _, _) => SetGrows(s, s', g, s'.groups[g]);
    case Run(t) => RunGrows(s, t, s.threads[t]);
    case _ =>
  }

  // ---- joins that met dead groups ----------------------------------------------------------

  predicate MetOk(s: State, th: Thread)
    requires th.Join?
  {
    && (forall i, j :: 0 <= i < j < |th.met| ==> th.met[i] != th.met[j])
    && (forall g :: g in th.met ==> Refers(s, g, th.gid) && !s.groups[g].alive && g !in th.deadBefore)
    && (th.jpc.JEnter? ==> th.jpc.g !in th.met && th.jpc.g !in th.deadBefore)
    && (forall g: nat :: g in th.deadBefore ==> g < |s.groups| && !s.groups[g].alive)
  }

  predicate JoinsOk(s: State) {
    forall t :: t in s.threads && s.threads[t].Join? ==> MetOk(s, s.threads[t])
  }

  lemma MetFrame(s: State, s': State, th: Thread)
    requires th.Join? && MetOk(s, th) && Grows(s, s')
    ensures MetOk(s', th)
  {
  }

  lemma JoinsFrame(s: State, s': State, t: Tid)
    requires JoinsOk(s) && Grows(s, s') && OthersSame(s, s', t)
    requires t in s'.threads && s'.threads[t].Join? ==> MetOk(s', s'.threads[t])
    ensures JoinsOk(s')
  {
  }

  lemma JoinKeepsMet(s: State, t: Tid)
    requires Inv(s) && t in s.threads && s.threads[t].Join? && MetOk(s, s.threads[t]) && JoinReady(s, s.threads[t])
    ensures var s' := JoinStep(s, t, s.threads[t]); t in s'.threads ==> s'.threads[t].Join? && MetOk(s', s'.threads[t])
  {
    var th := s.threads[t];
    JoinGrows(s, t, th);
    MetFrame(s, JoinStep(s, t, th), th);
    assert ThreadOk(s, t);
    if th.gid in s.mapped { assert GroupOk(s, s.mapped[th.gid]); }
  }

  lemma LeaveKeepsJoins(s: State, t: Tid, th: Thread)
    requires JoinsOk(s) && t in s.threads && s.threads[t] == th && th.Leave? && LeaveReady(s, th)
    ensures JoinsOk(LeaveStep(s, t, th))
  {
    LeaveMovesOn(s, t, th);
    JoinsFrame(s, LeaveStep(s, t, th), t);
  }

  lemma PostKeepsJoins(s: State, t: Tid, th: Thread)
    requires JoinsOk(s) && th.Post? && PostReady(s, th)
    ensures JoinsOk(PostStep(s, t, th))
  {
    PostGrows(s, t, th);
    JoinsFrame(s, PostStep(s, t, th), t);
  }

  lemma RunKeepsJoins(s: State, t: Tid)
    requires Inv(s) && JoinsOk(s) && t in s.threads && RunReady(s, s.threads[t])
    ensures JoinsOk(RunStep(s, t, s.threads[t]))
  {
    var th := s.threads[t];
    match th
    case Join(_, _, _, _, _) =>
      JoinKeepsMet(s, t);
      JoinGrows(s, t, th);
      JoinsFrame(s, JoinStep(s, t, th), t);
    case Leave(_, _, _, _) => LeaveKeepsJoins(s, t, th);
    case Post(_, _, _) => PostKeepsJoins(s, t, th);
    case _ => JoinsFrame(s, RunStep(s, t, th), t);
  }

  lemma ListenerKeepsJoins(s: State, s': State)
    requires JoinsOk(s) && Grows(s, s') && s'.threads == s.threads
    ensures JoinsOk(s')
  {
  }

  lemma StepKeepsJoins(s: State, st: Step)
    requires Inv(s) && JoinsOk(s) && Enabled(s, st)
    ensures JoinsOk(Apply(s, st))
  {
    match st
    case Run(t) => RunKeepsJoins(s, t);
    case Listen(g) => ListenMovesOn(s, g); ListenerKeepsJoins(s, ListenStep(s, g));
    case Deliver(g, uid, a) => StepGrows(s, st); ListenerKeepsJoins(s, DeliverStep(s, g, uid, a));
    case _ => StepGrows(s, st); JoinsFrame(s, Apply(s, st), st.t);
  }

  // ---- the order of deliveries -------------------------------------------------------------

  /** The entry the listener has taken from the channel and not finished with. */
  function InHand(grp: Group): seq<Entry> {
    match grp.listener
    case Knock(e) => [e]
    case Fan(e, _) => [e]
    case _ => []
  }

  /** Everything still to be fanned out, in channel order. */
  function Pending(grp: Group): seq<Entry> {
    InHand(grp) + grp.chan
  }

  predicate QueueOk(s: State, g: nat)
    requires g < |s.groups|
  {
    var p := Pending(s.groups[g]);
    && (forall i :: 0 <= i < |p| ==> s.groups[g].born <= p[i].at < s.clock)
    && (forall i, j :: 0 <= i < j < |p| ==> p[i].at < p[j].at)
    && s.groups[g].born <= s.clock
  }

  /** d is behind everything group g may still deliver. */
  predicate Behind(grp: Group, d: Delivery) {
    && (forall e :: e in grp.chan ==> d.at < e.at)
    && (grp.listener.Knock? ==> d.at < grp.listener.e.at)
    && (grp.listener.Fan? ==> d.at < grp.listener.e.at || (d.at == grp.listener.e.at && d.uid !in grp.listener.todo))
  }

  predicate DeliveryOk(s: State, d: Delivery) {
    && Refers(s, d.g, d.gid)
    && d.at < s.clock
    && Behind(s.groups[d.g], d)
    && (forall h: nat :: d.g < h < |s.groups| && s.groups[h].gid == d.gid ==> d.at < s.groups[h].born)
  }

  /** a was attempted before b: an earlier message, or the same message to another member. */
  predicate Ordered(a: Delivery, b: Delivery) {
    a.gid == b.gid ==> a.g <= b.g && (a.at < b.at || (a.at == b.at && a.g == b.g && a.uid != b.uid))
  }

  predicate OrderOk(s: State) {
    && (forall g: nat :: g < |s.groups| ==> QueueOk(s, g))
    && (forall i :: 0 <= i < |s.log| ==> DeliveryOk(s, s.log[i]))
    && (forall i, j :: 0 <= i < j < |s.log| ==> Ordered(s.log[i], s.log[j]))
  }

  lemma SameQueuesKeepOrder(s: State, s': State)
    requires OrderOk(s) && SameQueues(s, s')
    ensures OrderOk(s')
  {
    forall g: nat | g < |s'.groups| ensures QueueOk(s', g) { assert QueueOk(s, g); }
    forall i | 0 <= i < |s'.log| ensures DeliveryOk(s', s'.log[i]) { assert DeliveryOk(s, s.log[i]); }
  }

  lemma CreateKeepsOrder(s: State, s': State)
    requires OrderOk(s) && s'.clock == s.clock && s'.log == s.log
    requires |s'.groups| == |s.groups| + 1 && s'.groups[..|s.groups|] == s.groups
    requires s'.groups[|s.groups|].born == s.clock && s'.groups[|s.groups|].chan == [] &&
      s'.groups[|s.groups|].listener.Receive?
    ensures OrderOk(s')
  {
    forall g: nat | g < |s'.groups| ensures QueueOk(s', g) {
      if g < |s.groups| { assert QueueOk(s, g) && s'.groups[g] == s.groups[g]; }
    }
    forall i | 0 <= i < |s'.log| ensures DeliveryOk(s', s'.log[i]) {
      assert DeliveryOk(s, s.log[i]) && s'.groups[s.log[i].g] == s.groups[s.log[i].g];
      forall h: nat | s'.log[i].g < h < |s'.groups| && s'.groups[h].gid == s'.log[i].gid
        ensures s'.log[i].at < s'.groups[h].born {
        if h < |s.groups| { assert s'.groups[h] == s.groups[h]; }
      }
    }
  }

  lemma PushKeepsOrder(s: State, s': State, g: nat, m: GroupMsg)
    requires OrderOk(s) && g < |s.groups| && s'.clock == s.clock + 1 && s'.log == s.log
    requires s'.groups == s.groups[g := s.groups[g].(chan := s.groups[g].chan + [Entry(s.clock, m)])]
    ensures OrderOk(s')
  {
    forall h: nat | h < |s'.groups| ensures QueueOk(s', h) {
      assert QueueOk(s, h);
      if h == g { assert Pending(s'.groups[g]) == Pending(s.groups[g]) + [Entry(s.clock, m)]; }
    }
    forall i | 0 <= i < |s'.log| ensures DeliveryOk(s', s'.log[i]) { assert DeliveryOk(s, s.log[i]); }
  }

  /** Group g changes so that what is pending is kept or loses its first entry. */
  lemma DrainKeepsOrder(s: State, s': State, g: nat, grp: Group)
    requires OrderOk(s) && g < |s.groups| && s'.clock == s.clock && s'.log == s.log && s'.groups == s.groups[g := grp]
    requires grp.gid == s.groups[g].gid && grp.born == s.groups[g].born
    requires Pending(grp) == Pending(s.groups[g]) ||
      (Pending(s.groups[g]) != [] && Pending(grp) == Pending(s.groups[g])[1..])
    requires forall d :: Behind(s.groups[g], d) ==> Behind(grp, d)
    ensures OrderOk(s')
  {
    forall h: nat | h < |s'.groups| ensures QueueOk(s', h) { assert QueueOk(s, h); }
    forall i | 0 <= i < |s'.log| ensures DeliveryOk(s', s'.log[i]) { assert DeliveryOk(s, s.log[i]); }
  }

  /** A listener step that delivers nothing. */
  lemma ListenKeepsOrder(s: State, g: nat)
    requires OrderOk(s) && g < |s.groups| && ListenReady(s, g)
    ensures OrderOk(ListenStep(s, g))
  {
    ListenMovesOn(s, g);
    PendingDrains(s.groups[g]);
    DrainKeepsOrder(s, ListenStep(s, g), g, Heard(s.groups[g]));
  }

  lemma PendingDrains(a: Group)
    requires CanListen(a)
    ensures Pending(Heard(a)) == Pending(a) || (Pending(a) != [] && Pending(Heard(a)) == Pending(a)[1..])
    ensures forall d :: Behind(a, d) ==> Behind(Heard(a), d)
  {
    if a.listener.Receive? && a.chan != [] {
      assert Pending(Heard(a)) == [a.chan[0]] + a.chan[1..] == a.chan == Pending(a);
    } else if a.listener.Fan? || a.listener.Knock? {
      assert Pending(a)[1..] == a.chan;
    }
  }

  lemma DeliverKeepsOrder(s: State, g: nat, uid: Uid, accepted: bool)
    requires Inv(s) && OrderOk(s) && g < |s.groups| && DeliverReady(s, g, uid)
    ensures OrderOk(DeliverStep(s, g, uid, accepted))
  {
    var s' := DeliverStep(s, g, uid, accepted);
    var d, grp := s'.log[|s.log|], s.groups[g];
    assert GroupOk(s, g) && QueueOk(s, g);
    assert Pending(grp)[0] == grp.listener.e && Pending(grp)[1..] == grp.chan;
    forall h: nat | h < |s'.groups| ensures QueueOk(s', h) { assert QueueOk(s, h); }
    forall i | 0 <= i < |s'.log| ensures DeliveryOk(s', s'.log[i]) {
      if i < |s.log| { assert DeliveryOk(s, s.log[i]); }
      else { NewestIsLast(s, g); }
    }
    forall i | 0 <= i < |s.log| ensures Ordered(s'.log[i], d) {
      assert DeliveryOk(s, s.log[i]);
      if s.log[i].gid == d.gid { NewestIsLast(s, g); }
    }
  }

  /** A group that is fanning out is the mapped one, so no newer object of its gid exists. */
  lemma NewestIsLast(s: State, g: nat)
    requires Inv(s) && g < |s.groups| && s.groups[g].listener.Fan?
    ensures IsMapped(s, g)
    ensures forall h: nat :: h < |s.groups| && s.groups[h].gid == s.groups[g].gid ==> h <= g
  {
    assert GroupOk(s, g);
    forall h: nat | h < |s.groups| && s.groups[h].gid == s.groups[g].gid ensures h <= g { assert GroupOk(s, h); }
  }

  lemma LeaveKeepsOrder(s: State, t: Tid, th: Thread)
    requires OrderOk(s) && t in s.threads && s.threads[t] == th && th.Leave? && LeaveReady(s, th)
    ensures OrderOk(LeaveStep(s, t, th))
  {
    LeaveMovesOn(s, t, th);
    SameQueuesKeepOrder(s, LeaveStep(s, t, th));
  }

  lemma JoinKeepsOrder(s: State, t: Tid, th: Thread)
    requires OrderOk(s) && th.Join? && JoinReady(s, th)
    ensures OrderOk(JoinStep(s, t, th))
  {
    if th.jpc.JMake? && th.gid !in s.mapped {
      CreateKeepsOrder(s, JoinStep(s, t, th));
    } else {
      SameQueuesKeepOrder(s, JoinStep(s, t, th));
    }
  }

  lemma PostKeepsOrder(s: State, t: Tid, th: Thread)
    requires OrderOk(s) && th.Post? && PostReady(s, th)
    ensures OrderOk(PostStep(s, t, th))
  {
    if th.ppc.PPush? && s.groups[th.ppc.g].closes == 0 {
      PushKeepsOrder(s, PostStep(s, t, th), th.ppc.g, th.msg);
    } else {
      SameQueuesKeepOrder(s, PostStep(s, t, th));
    }
  }

  lemma RunKeepsOrder(s: State, t: Tid, th: Thread)
    requires OrderOk(s) && t in s.threads && s.threads[t] == th && RunReady(s, th)
    ensures OrderOk(RunStep(s, t, th))
  {
    match th
    case Join(_, _, _, _, _) => JoinKeepsOrder(s, t, th);
    case Leave(_, _, _, _) => LeaveKeepsOrder(s, t, th);
    case Post(_, _, _) => PostKeepsOrder(s, t, th);
    case _ => SameQueuesKeepOrder(s, RunStep(s, t, th));
  }

  lemma StepKeepsOrder(s: State, st: Step)
    requires Inv(s) && OrderOk(s) && Enabled(s, st)
    ensures OrderOk(Apply(s, st))
  {
    match st
    case Listen(g) => ListenKeepsOrder(s, g);
    case Deliver(g, uid, accepted) => DeliverKeepsOrder(s, g, uid, accepted);
    case Run(t) => RunKeepsOrder(s, t, s.threads[t]);
    case _ => SameQueuesKeepOrder(s, Apply(s, st));
  }

  // ---- no empty group stays behind ---------------------------------------------------------

  /** Thread t will fill or remove the empty mapped group g. */
  predicate Attends(s: State, t: Tid, g: nat) {
    t in s.threads &&
    ((s.threads[t].Join? && s.threads[t].jpc == JEnter(g)) || (s.threads[t].Leave? && s.threads[t].lpc == LUnmap(g)))
  }

  ghost predicate NoLeak(s: State) {
    forall k :: k in s.mapped && s.mapped[k] < |s.groups| && s.groups[s.mapped[k]].users == {} ==>
      exists t :: Attends(s, t, s.mapped[k])
  }

  /** Threads other than t are as before, and t attends nothing it might abandon. */
  lemma NoLeakFrame(s: State, s': State, t: Tid)
    requires NoLeak(s) && OthersSame(s, s', t) && |s.groups| <= |s'.groups|
    requires forall k :: k in s'.mapped ==> k in s.mapped && s'.mapped[k] == s.mapped[k] && s.mapped[k] < |s.groups|
    requires forall k :: k in s'.mapped && s'.groups[s'.mapped[k]].users == {} ==>
               s.groups[s.mapped[k]].users == {} || Attends(s', t, s'.mapped[k])
    requires forall k :: k in s'.mapped && Attends(s, t, s.mapped[k]) && s'.groups[s'.mapped[k]].users == {} ==>
      Attends(s', t, s.mapped[k])
    ensures NoLeak(s')
  {
    forall k | k in s'.mapped && s'.mapped[k] < |s'.groups| && s'.groups[s'.mapped[k]].users == {}
      ensures exists u :: Attends(s', u, s'.mapped[k])
    {
      if s.groups[s.mapped[k]].users == {} {
        var u :| Attends(s, u, s.mapped[k]);
        assert Attends(s', u, s'.mapped[k]);
      }
    }
  }

  lemma CreateKeepsNoLeak(s: State, t: Tid)
    requires Inv(s) && NoLeak(s) && t in s.threads && s.threads[t].Join? && s.threads[t].jpc.JMake? &&
      s.threads[t].gid !in s.mapped
    ensures NoLeak(JoinStep(s, t, s.threads[t]))
  {
    var s' := JoinStep(s, t, s.threads[t]);
    assert Attends(s', t, |s.groups|);
    forall k | k in s.mapped && s.groups[s.mapped[k]].users == {} ensures exists u :: Attends(s', u, s.mapped[k]) {
      var u :| Attends(s, u, s.mapped[k]);
      assert Attends(s', u, s.mapped[k]);
    }
  }

  lemma JoinKeepsNoLeak(s: State, t: Tid)
    requires Inv(s) && NoLeak(s) && t in s.threads && s.threads[t].Join? && JoinReady(s, s.threads[t])
    ensures NoLeak(JoinStep(s, t, s.threads[t]))
  {
    if s.threads[t].jpc.JMake? && s.threads[t].gid !in s.mapped {
      CreateKeepsNoLeak(s, t);
    } else {
      assert ThreadOk(s, t);
      if s.threads[t].jpc.JEnter? { assert GroupOk(s, s.threads[t].jpc.g); }
      NoLeakFrame(s, JoinStep(s, t, s.threads[t]), t);
    }
  }

  lemma LockedKeepsNoLeak(s: State, t: Tid)
    requires Inv(s) && NoLeak(s) && t in s.threads && Locked(s.threads[t]) && LeaveReady(s, s.threads[t])
    ensures NoLeak(LeaveStep(s, t, s.threads[t]))
  {
    assert ThreadOk(s, t);
    NoLeakFrame(s, LeaveStep(s, t, s.threads[t]), t);
  }

  lemma LeaveKeepsNoLeak(s: State, t: Tid)
    requires Inv(s) && NoLeak(s) && t in s.threads && s.threads[t].Leave? && LeaveReady(s, s.threads[t])
    ensures NoLeak(LeaveStep(s, t, s.threads[t]))
  {
    if Locked(s.threads[t]) {
      LockedKeepsNoLeak(s, t);
    } else {
      NoLeakFrame(s, LeaveStep(s, t, s.threads[t]), t);
    }
  }

  lemma PostKeepsNoLeak(s: State, t: Tid)
    requires Inv(s) && NoLeak(s) && t in s.threads && s.threads[t].Post? && PostReady(s, s.threads[t])
    ensures NoLeak(PostStep(s, t, s.threads[t]))
  {
    NoLeakFrame(s, PostStep(s, t, s.threads[t]), t);
  }

  lemma ListenKeepsNoLeak(s: State, s': State, g: nat)
    requires MapOk(s) && NoLeak(s) && ListenerMoves(s, s', g)
    ensures NoLeak(s')
  {
    var t := FreshTid(s);
    NoLeakFrame(s, s', t);
  }

  lemma RunKeepsNoLeak(s: State, t: Tid)
    requires Inv(s) && NoLeak(s) && t in s.threads && RunReady(s, s.threads[t])
    ensures NoLeak(RunStep(s, t, s.threads[t]))
  {
    match s.threads[t]
    case Join(_, _, _, _, _) => JoinKeepsNoLeak(s, t);
    case Leave(_, _, _, _) => LeaveKeepsNoLeak(s, t);
    case Post(_, _, _) => PostKeepsNoLeak(s, t);
    case _ => NoLeakFrame(s, RunStep(s, t, s.threads[t]), t);
  }

  lemma StepKeepsNoLeak(s: State, st: Step)
    requires Inv(s) && NoLeak(s) && Enabled(s, st)
    ensures NoLeak(Apply(s, st))
  {
    match st
    case Run(t) => RunKeepsNoLeak(s, t);
    case Listen(g) => ListenMovesOn(s, g); ListenKeepsNoLeak(s, ListenStep(s, g), g);
    case Deliver(g, _, _) => var t := FreshTid(s); NoLeakFrame(s, Apply(s, st), t);
    case _ => NoLeakFrame(s, Apply(s, st), st.t);
  }
}
