/** The protocol as an atomic membership table, and its agreement with what each client notes. */
module GroupMembership {
  import opened Types
  import opened GroupProtocol
  import opened GroupInvariant
  import opened GroupHistory

  // ---- every step is one atomic change of the table, or none -------------------------------

  /** The membership a node stands for: the users of the mapped groups that have any. */
  function TableOf(s: State): Table {
    map k | k in s.mapped && s.mapped[k] < |s.groups| && s.groups[s.mapped[k]].users != {} ::
      s.groups[s.mapped[k]].users
  }

  /** A join takes effect when it enters a live group, a leave when it gets the users lock. */
  function TableAfterRun(s: State, th: Thread): Table
    requires RunReady(s, th)
  {
    if th.Join? && th.jpc.JEnter? && s.groups[th.jpc.g].alive then AddMember(TableOf(s), th.gid, th.uid)
    else if th.Leave? && th.lpc.LKnock? && s.groups[th.lpc.g].alive then RemoveMember(TableOf(s), th.gid, th.uid)
    else TableOf(s)
  }

  function TableAfter(s: State, st: Step): Table
    requires Enabled(s, st)
  {
    if st.Run? then TableAfterRun(s, s.threads[st.t]) else TableOf(s)
  }

  /** A live group whose users lock is free is the mapped one. */
  lemma LiveIsMapped(s: State, g: nat)
    requires Inv(s) && g < |s.groups| && s.groups[g].alive && !s.groups[g].lock.Writer?
    ensures IsMapped(s, g)
  {
    assert GroupOk(s, g);
  }

  lemma SameTable(s: State, s': State)
    requires Inv(s) && |s.groups| <= |s'.groups|
    requires forall k :: k in s.mapped && s.groups[s.mapped[k]].users != {} ==>
      k in s'.mapped && s'.mapped[k] == s.mapped[k]
    requires forall k :: k in s'.mapped ==>
      s'.mapped[k] < |s'.groups| &&
      (if k in s.mapped then s'.mapped[k] == s.mapped[k] && s'.groups[s'.mapped[k]].users == s.groups[s.mapped[k]].users
       else s'.groups[s'.mapped[k]].users == {})
    ensures TableOf(s') == TableOf(s)
  {
  }

  /** Changing the users of a mapped group changes its entry in the table and nothing else. */
  lemma SetUsers(s: State, s': State, g: nat)
    requires Inv(s) && IsMapped(s, g) && s'.mapped == s.mapped && |s'.groups| == |s.groups|
    requires s'.groups == s.groups[g := s'.groups[g]]
    ensures TableOf(s') ==
      if s'.groups[g].users == {} then TableOf(s) - {s.groups[g].gid}
      else TableOf(s)[s.groups[g].gid := s'.groups[g].users]
    ensures MembersOf(TableOf(s), s.groups[g].gid) == s.groups[g].users
  {
    var gid := s.groups[g].gid;
    forall k | k in s.mapped && k != gid ensures s.mapped[k] != g { assert Refers(s, s.mapped[k], k); }
  }

  lemma JoinIsAtomic(s: State, t: Tid)
    requires Inv(s) && t in s.threads && s.threads[t].Join? && JoinReady(s, s.threads[t])
    ensures TableOf(JoinStep(s, t, s.threads[t])) == TableAfterRun(s, s.threads[t])
  {
    var s', th := JoinStep(s, t, s.threads[t]), s.threads[t];
    assert ThreadOk(s, t);
    if th.jpc.JEnter? && s.groups[th.jpc.g].alive {
      LiveIsMapped(s, th.jpc.g);
      SetUsers(s, s', th.jpc.g);
    } else {
      SameTable(s, s');
    }
  }

  lemma KnockIsAtomic(s: State, t: Tid, g: nat)
    requires Inv(s) && t in s.threads && s.threads[t].Leave? && s.threads[t].lpc == LKnock(g) &&
      LeaveReady(s, s.threads[t])
    ensures TableOf(LeaveStep(s, t, s.threads[t])) == TableAfterRun(s, s.threads[t])
  {
    var s', th := LeaveStep(s, t, s.threads[t]), s.threads[t];
    assert ThreadOk(s, t) && GroupOk(s, g);
    assert s'.groups == s.groups[g := s'.groups[g]] && s'.groups[g].users == s.groups[g].users - {th.uid};
    if s.groups[g].alive {
      LiveIsMapped(s, g);
      SetUsers(s, s', g);
    } else {
      SameTable(s, s');
    }
  }

  lemma LeaveIsAtomic(s: State, t: Tid)
    requires Inv(s) && t in s.threads && s.threads[t].Leave? && LeaveReady(s, s.threads[t])
    ensures TableOf(LeaveStep(s, t, s.threads[t])) == TableAfterRun(s, s.threads[t])
  {
    if s.threads[t].lpc.LKnock? {
      KnockIsAtomic(s, t, s.threads[t].lpc.g);
    } else {
      assert ThreadOk(s, t);
      SameTable(s, LeaveStep(s, t, s.threads[t]));
    }
  }

  lemma ListenIsAtomic(s: State, g: nat)
    requires Inv(s) && g < |s.groups| && ListenReady(s, g)
    ensures TableOf(ListenStep(s, g)) == TableOf(s)
  {
    assert GroupOk(s, g);
    SameTable(s, ListenStep(s, g));
  }

  lemma PostIsAtomic(s: State, t: Tid, th: Thread)
    requires Inv(s) && th.Post? && PostReady(s, th)
    ensures TableOf(PostStep(s, t, th)) == TableOf(s)
  {
    SameTable(s, PostStep(s, t, th));
  }

  lemma RunIsAtomic(s: State, t: Tid)
    requires Inv(s) && t in s.threads && RunReady(s, s.threads[t])
    ensures TableOf(RunStep(s, t, s.threads[t])) == TableAfterRun(s, s.threads[t])
  {
    match s.threads[t]
    case Join(_, _, _, _, _) => JoinIsAtomic(s, t);
    case Leave(_, _, _, _) => LeaveIsAtomic(s, t);
    case Post(_, _, _) => PostIsAtomic(s, t, s.threads[t]);
    case _ =>
  }

  /** The protocol refines an atomic table: create, unmap, kill, close, retry and delivery steps
      are invisible in it. */
  lemma StepIsAtomic(s: State, st: Step)
    requires Inv(s) && Enabled(s, st)
    ensures TableOf(Apply(s, st)) == TableAfter(s, st)
  {
    match st
    case Run(t) => RunIsAtomic(s, t);
    case Listen(g) => ListenIsAtomic(s, g);
    case _ =>
  }

  // ---- agreement with Client.TGroup --------------------------------------------------------

  /** The groups the protocol has client uid in. */
  function GidsOf(m: Table, uid: Uid): set<Gid> {
    set k | k in m && uid in m[k]
  }

  predicate Member(s: State, uid: Uid, gid: Gid) {
    gid in GidsOf(TableOf(s), uid)
  }

  lemma GidsAfter(m: Table, gid: Gid, uid: Uid)
    ensures forall x :: GidsOf(AddMember(m, gid, uid), x) == if x == uid then GidsOf(m, x) + {gid} else GidsOf(m, x)
    ensures forall x :: GidsOf(RemoveMember(m, gid, uid), x) == if x == uid then GidsOf(m, x) - {gid} else GidsOf(m, x)
  {
  }

  /** Both are calls on one client. */
  predicate CallOf(a: Thread, b: Thread) {
    !a.Post? && !b.Post? && a.uid == b.uid
  }

  /** Calls on the same client run one after the other. */
  predicate Serial(s: State) {
    forall t, u :: t in s.threads && u in s.threads && CallOf(s.threads[t], s.threads[u]) ==> t == u
  }

  /** The group has been changed for the call; the client's own set is changed later. */
  predicate Adding(th: Thread) { th.Join? && th.jpc.JNote? }
  predicate Removing(th: Thread) { th.Leave? && !th.lpc.LLook? && !th.lpc.LKnock? }
  predicate HalfDone(th: Thread) { Adding(th) || Removing(th) }

  predicate CallAgrees(s: State, th: Thread) {
    && (Adding(th) ==> Member(s, th.uid, th.gid))
    && (Removing(th) ==> !Member(s, th.uid, th.gid))
    && (th.Leave? && th.lpc.LKnock? && Member(s, th.uid, th.gid) ==> s.mapped[th.gid] == th.lpc.g)
  }

  /** What the client notes is what the protocol has, up to the one group a call is half done with. */
  predicate Settled(s: State, uid: Uid, th: Option<Thread>) {
    if th.Some? && HalfDone(th.value) then
      GidsOf(TableOf(s), uid) - {th.value.gid} == JoinedBy(s, uid) - {th.value.gid}
    else
      GidsOf(TableOf(s), uid) == JoinedBy(s, uid)
  }

  predicate Idle(s: State, uid: Uid) {
    forall t :: t in s.threads ==> s.threads[t].Post? || s.threads[t].uid != uid
  }

  ghost predicate Agree(s: State) {
    && (forall t :: t in s.threads ==> CallAgrees(s, s.threads[t]))
    && (forall t :: t in s.threads && !s.threads[t].Post? ==> Settled(s, s.threads[t].uid, Some(s.threads[t])))
    && (forall uid :: Idle(s, uid) ==> Settled(s, uid, None))
  }

  // A step of a call on one client leaves the others alone.

  ghost predicate OwnStep(s: State, s': State, t: Tid, uid: Uid) {
    && OthersSame(s, s', t)
    && (t in s.threads || t in s'.threads)
    && (t in s.threads ==> !s.threads[t].Post? && s.threads[t].uid == uid)
    && (t in s'.threads ==> !s'.threads[t].Post? && s'.threads[t].uid == uid)
    && (forall x :: x != uid ==> GidsOf(TableOf(s'), x) == GidsOf(TableOf(s), x) && JoinedBy(s', x) == JoinedBy(s, x))
    && (forall k :: k in s.mapped && k in s'.mapped ==> s'.mapped[k] == s.mapped[k])
  }

  lemma OnlyCall(s: State, t: Tid, u: Tid)
    requires Serial(s) && t in s.threads && u in s.threads && u != t && !s.threads[t].Post?
    ensures s.threads[u].Post? || s.threads[u].uid != s.threads[t].uid
  {
  }

  lemma OtherCall(s: State, s': State, t: Tid, uid: Uid, u: Tid)
    requires Agree(s) && Serial(s) && Serial(s') && OwnStep(s, s', t, uid) && u != t && u in s'.threads
    ensures CallAgrees(s', s'.threads[u])
    ensures !s'.threads[u].Post? ==> Settled(s', s'.threads[u].uid, Some(s'.threads[u]))
  {
  }

  lemma OwnStepKeepsAgree(s: State, s': State, t: Tid, uid: Uid)
    requires Agree(s) && Serial(s) && Serial(s') && OwnStep(s, s', t, uid)
    requires t in s'.threads ==> CallAgrees(s', s'.threads[t])
    requires Settled(s', uid, if t in s'.threads then Some(s'.threads[t]) else None)
    ensures Agree(s')
  {
    forall u | u in s'.threads && u != t
      ensures CallAgrees(s', s'.threads[u])
      ensures !s'.threads[u].Post? ==> Settled(s', s'.threads[u].uid, Some(s'.threads[u]))
    {
      OtherCall(s, s', t, uid, u);
    }
    forall x | Idle(s', x) ensures Settled(s', x, None) {
      if x != uid { assert Idle(s, x); }
    }
  }

  lemma JoinMoveSettles(s: State, s': State, t: Tid)
    requires JoinMoves(s, s', t) && !s.threads[t].jpc.JNote?
    requires TableOf(s') ==
      if s'.threads[t].jpc.JNote? then AddMember(TableOf(s), s.threads[t].gid, s.threads[t].uid) else TableOf(s)
    requires Settled(s, s.threads[t].uid, Some(s.threads[t]))
    ensures OwnStep(s, s', t, s.threads[t].uid)
    ensures CallAgrees(s', s'.threads[t]) && Settled(s', s.threads[t].uid, Some(s'.threads[t]))
  {
    GidsAfter(TableOf(s), s.threads[t].gid, s.threads[t].uid);
  }

  lemma JoinNoteSettles(s: State, s': State, t: Tid)
    requires t in s.threads && s.threads[t].Join? && s.threads[t].jpc.JNote?
    requires s' == JoinNoteStep(s, t, s.threads[t])
    requires TableOf(s') == TableOf(s)
    requires CallAgrees(s, s.threads[t]) && Settled(s, s.threads[t].uid, Some(s.threads[t]))
    ensures OwnStep(s, s', t, s.threads[t].uid) && Settled(s', s.threads[t].uid, None)
  {
    var th := s.threads[t];
    var G, J := GidsOf(TableOf(s), th.uid), JoinedBy(s, th.uid);
    assert G == G - {th.gid} + {th.gid} == J + {th.gid};
  }

  lemma JoinKeepsAgree(s: State, t: Tid)
    requires Inv(s) && Agree(s) && Serial(s) && t in s.threads && s.threads[t].Join? && JoinReady(s, s.threads[t])
    requires Serial(JoinStep(s, t, s.threads[t]))
    ensures Agree(JoinStep(s, t, s.threads[t]))
  {
    var s', th := JoinStep(s, t, s.threads[t]), s.threads[t];
    JoinIsAtomic(s, t);
    if th.jpc.JNote? {
      JoinNoteSettles(s, s', t);
    } else {
      JoinMovesOn(s, t, th);
      JoinMoveSettles(s, s', t);
    }
    OwnStepKeepsAgree(s, s', t, th.uid);
  }

  lemma MoveOwnStep(s: State, s': State, t: Tid)
    requires LeaveMoves(s, s', t)
    requires TableOf(s') == TableOf(s) || TableOf(s') == RemoveMember(TableOf(s), s.threads[t].gid, s.threads[t].uid)
    ensures OwnStep(s, s', t, s.threads[t].uid)
  {
    GidsAfter(TableOf(s), s.threads[t].gid, s.threads[t].uid);
  }

  /** A leave that gets the lock of a group that died meanwhile finds its client in no group of the gid. */
  lemma StaleLeave(s: State, t: Tid, g: nat)
    requires Inv(s) && t in s.threads && s.threads[t].Leave? && s.threads[t].lpc == LKnock(g) && g < |s.groups|
    requires CallAgrees(s, s.threads[t]) && !s.groups[g].alive
    ensures !Member(s, s.threads[t].uid, s.threads[t].gid)
  {
    assert ThreadOk(s, t) && GroupOk(s, g);
  }

  /** The client was in the group, or in no group of this gid; now it is in none. */
  lemma KnockSettles(s: State, s': State, t: Tid, g: nat)
    requires LeaveMoves(s, s', t) && s.threads[t].lpc == LKnock(g) && Removing(s'.threads[t])
    requires TableOf(s') == RemoveMember(TableOf(s), s.threads[t].gid, s.threads[t].uid)
      || (TableOf(s') == TableOf(s) && !Member(s, s.threads[t].uid, s.threads[t].gid))
    requires Settled(s, s.threads[t].uid, Some(s.threads[t]))
    ensures CallAgrees(s', s'.threads[t]) && Settled(s', s.threads[t].uid, Some(s'.threads[t]))
  {
    GidsAfter(TableOf(s), s.threads[t].gid, s.threads[t].uid);
  }

  lemma KnockKeepsAgree(s: State, t: Tid, g: nat)
    requires Inv(s) && Agree(s) && Serial(s) && t in s.threads && s.threads[t].Leave? && LeaveReady(s, s.threads[t])
    requires s.threads[t].lpc == LKnock(g) && Serial(LeaveStep(s, t, s.threads[t]))
    ensures Agree(LeaveStep(s, t, s.threads[t]))
  {
    var s' := LeaveStep(s, t, s.threads[t]);
    KnockIsAtomic(s, t, g);
    LeaveMovesOn(s, t, s.threads[t]);
    if !s.groups[g].alive { StaleLeave(s, t, g); }
    MoveOwnStep(s, s', t);
    KnockSettles(s, s', t, g);
    OwnStepKeepsAgree(s, s', t, s.threads[t].uid);
  }

  /** A step of a leave that finds the group, or works inside its lock. */
  predicate PlainMove(s: State, s': State, t: Tid) {
    && t in s.threads && t in s'.threads && s.threads[t].Leave? && s'.threads[t].Leave?
    && var th, lpc := s.threads[t], s'.threads[t].lpc;
       if th.lpc.LLook? then
         s'.mapped == s.mapped && lpc == if th.gid in s.mapped then LKnock(s.mapped[th.gid]) else LNote
       else Removing(th) && Removing(s'.threads[t])
  }

  lemma LockedIsPlain(s: State, t: Tid)
    requires t in s.threads && s.threads[t].Leave? && LeaveReady(s, s.threads[t])
    requires !s.threads[t].lpc.LKnock? && !s.threads[t].lpc.LNote?
    ensures PlainMove(s, LeaveStep(s, t, s.threads[t]), t)
  {
  }

  lemma MoveSettles(s: State, s': State, t: Tid)
    requires LeaveMoves(s, s', t) && TableOf(s') == TableOf(s)
    requires CallAgrees(s, s.threads[t]) && Settled(s, s.threads[t].uid, Some(s.threads[t]))
    requires PlainMove(s, s', t)
    ensures CallAgrees(s', s'.threads[t]) && Settled(s', s.threads[t].uid, Some(s'.threads[t]))
  {
  }

  lemma LockedKeepsAgree(s: State, t: Tid)
    requires Inv(s) && Agree(s) && Serial(s) && t in s.threads && s.threads[t].Leave? && LeaveReady(s, s.threads[t])
    requires !s.threads[t].lpc.LKnock? && !s.threads[t].lpc.LNote? && Serial(LeaveStep(s, t, s.threads[t]))
    ensures Agree(LeaveStep(s, t, s.threads[t]))
  {
    LeaveIsAtomic(s, t);
    LeaveMovesOn(s, t, s.threads[t]);
    LockedIsPlain(s, t);
    MoveKeepsAgree(s, LeaveStep(s, t, s.threads[t]), t);
  }

  lemma MoveKeepsAgree(s: State, s': State, t: Tid)
    requires Agree(s) && Serial(s) && Serial(s') && LeaveMoves(s, s', t) && TableOf(s') == TableOf(s)
    requires PlainMove(s, s', t)
    ensures Agree(s')
  {
    MoveOwnStep(s, s', t);
    MoveSettles(s, s', t);
    OwnStepKeepsAgree(s, s', t, s.threads[t].uid);
  }

  lemma NoteKeepsAgree(s: State, t: Tid)
    requires Inv(s) && Agree(s) && Serial(s) && t in s.threads && s.threads[t].Leave? && LeaveReady(s, s.threads[t])
    requires s.threads[t].lpc.LNote? && Serial(LeaveStep(s, t, s.threads[t]))
    ensures Agree(LeaveStep(s, t, s.threads[t]))
  {
    var s', th := LeaveStep(s, t, s.threads[t]), s.threads[t];
    LeaveIsAtomic(s, t);
    assert CallAgrees(s, th) && Settled(s, th.uid, Some(th));
    assert GidsOf(TableOf(s), th.uid) == GidsOf(TableOf(s), th.uid) - {th.gid};
    OwnStepKeepsAgree(s, s', t, th.uid);
  }

  lemma LeaveKeepsAgree(s: State, t: Tid)
    requires Inv(s) && Agree(s) && Serial(s) && t in s.threads && s.threads[t].Leave? && LeaveReady(s, s.threads[t])
    requires Serial(LeaveStep(s, t, s.threads[t]))
    ensures Agree(LeaveStep(s, t, s.threads[t]))
  {
    var lpc := s.threads[t].lpc;
    if lpc.LKnock? {
      KnockKeepsAgree(s, t, lpc.g);
    } else if lpc.LNote? {
      NoteKeepsAgree(s, t);
    } else {
      LockedKeepsAgree(s, t);
    }
  }

  lemma OutAllKeepsAgree(s: State, s': State, t: Tid, uid: Uid, held: map<Uid, Tid>)
    requires Agree(s) && Serial(s) && Serial(s') && t in s.threads &&
      (s.threads[t] == OutAll(uid) || s.threads[t] == OutLoop(uid))
    requires s' == EndThread(s.(held := held), t) || s' == SetThread(s.(held := held), t, OutLoop(uid))
    ensures Agree(s')
  {
    OwnStepKeepsAgree(s, s', t, uid);
  }

  lemma RunKeepsAgree(s: State, t: Tid)
    requires Inv(s) && Agree(s) && Serial(s) && t in s.threads && RunReady(s, s.threads[t])
    requires Serial(RunStep(s, t, s.threads[t]))
    ensures Agree(RunStep(s, t, s.threads[t]))
  {
    var s' := RunStep(s, t, s.threads[t]);
    match s.threads[t]
    case Join(_, _, _, _, _) => JoinKeepsAgree(s, t);
    case Leave(_, _, _, _) => LeaveKeepsAgree(s, t);
    case Post(_, _, _) =>
      PostIsAtomic(s, t, s.threads[t]);
      PostKeepsAgree(s, t);
    case OutAll(uid) => OutAllKeepsAgree(s, s', t, uid, s'.held);
    case OutLoop(uid) => OutAllKeepsAgree(s, s', t, uid, s'.held);
  }

  /** A step of a sender or a listener changes neither the table nor any client call. */
  lemma ForeignStepKeepsAgree(s: State, s': State, t: Tid)
    requires Agree(s) && OthersSame(s, s', t) && s'.joined == s.joined && TableOf(s') == TableOf(s)
    requires forall k :: k in s'.mapped ==> k in s.mapped && s'.mapped[k] == s.mapped[k]
    requires t in s.threads ==> s.threads[t].Post?
    requires t in s'.threads ==> s'.threads[t].Post?
    ensures Agree(s')
  {
    forall u | u in s'.threads && u != t ensures CallAgrees(s', s'.threads[u]) { assert CallAgrees(s, s.threads[u]); }
    forall x | Idle(s', x) ensures Settled(s', x, None) { assert Idle(s, x); }
  }

  lemma PostIsForeign(s: State, t: Tid)
    requires t in s.threads && s.threads[t].Post? && PostReady(s, s.threads[t])
    ensures var s' := PostStep(s, t, s.threads[t]);
      && OthersSame(s, s', t) && s'.joined == s.joined && s'.mapped == s.mapped
      && (t in s'.threads ==> s'.threads[t].Post?)
  {
  }

  lemma PostKeepsAgree(s: State, t: Tid)
    requires Agree(s) && t in s.threads && s.threads[t].Post? && PostReady(s, s.threads[t])
    requires TableOf(PostStep(s, t, s.threads[t])) == TableOf(s)
    ensures Agree(PostStep(s, t, s.threads[t]))
  {
    PostIsForeign(s, t);
    ForeignStepKeepsAgree(s, PostStep(s, t, s.threads[t]), t);
  }

  lemma ListenKeepsAgree(s: State, s': State, g: nat)
    requires Agree(s) && ListenerMoves(s, s', g) && TableOf(s') == TableOf(s)
    ensures Agree(s')
  {
    var t := FreshTid(s);
    ForeignStepKeepsAgree(s, s', t);
  }

  lemma StartKeepsAgree(s: State, s': State, t: Tid, uid: Uid)
    requires Agree(s) && Serial(s) && Serial(s') && t !in s.threads && t in s'.threads
    requires s' == SetThread(s, t, s'.threads[t]) && TableOf(s') == TableOf(s)
    requires !s'.threads[t].Post? && s'.threads[t].uid == uid && !HalfDone(s'.threads[t])
    requires s'.threads[t].Leave? ==> !s'.threads[t].lpc.LKnock?
    ensures Agree(s')
  {
    forall u | u in s.threads ensures s.threads[u].Post? || s.threads[u].uid != uid { OnlyCall(s', t, u); }
    assert Idle(s, uid);
    OwnStepKeepsAgree(s, s', t, uid);
  }

  lemma StepKeepsAgree(s: State, st: Step)
    requires Inv(s) && Agree(s) && Enabled(s, st) && Serial(s) && Serial(Apply(s, st))
    ensures Agree(Apply(s, st))
  {
    match st
    case Run(t) => RunKeepsAgree(s, t);
    case Listen(g) =>
      ListenIsAtomic(s, g);
      ListenMovesOn(s, g);
      ListenKeepsAgree(s, ListenStep(s, g), g);
    case Deliver(g, _, _) =>
      var t := FreshTid(s);
      ForeignStepKeepsAgree(s, Apply(s, st), t);
    case StartPost(t, _, _) => ForeignStepKeepsAgree(s, Apply(s, st), t);
    case RunOut(t, gid) => RunOutKeepsAgree(s, t, gid);
    case _ => StartKeepsAgree(s, Apply(s, st), st.t, st.uid);
  }

  lemma RunOutKeepsAgree(s: State, t: Tid, gid: Gid)
    requires Agree(s) && Serial(s) && t in s.threads && s.threads[t].OutLoop?
    requires Serial(SetThread(s, t, Leave(s.threads[t].uid, gid, true, LLook)))
    ensures Agree(SetThread(s, t, Leave(s.threads[t].uid, gid, true, LLook)))
  {
    OwnStepKeepsAgree(s, SetThread(s, t, Leave(s.threads[t].uid, gid, true, LLook)), t, s.threads[t].uid);
  }
}
