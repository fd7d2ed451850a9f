/** The life of temporary groups on one node, as a step system.

    Every group object ever created has a number (its incarnation); the manager maps a gid to at
    most one of them. Any number of calls run at once, each with its own program counter. A step is
    one lock-protected action. The manager's lock protects only actions that take no other lock, so
    each of them is one step; the users lock of a group is held across steps by a leave that
    empties the group and by the group's listener while it fans a message out, and the group lock
    of a client is held across steps by the call that leaves all of the client's groups. `State` is
    read without a lock by senders, so setting it and closing the channel are separate steps.

    `clock`, `born`, `closes`, `met`, `deadBefore` and `log` only record what happened. */
module GroupProtocol {
  import opened Types

  type Tid = nat

  /** A queued message, with its place in the order in which messages entered group channels. */
  datatype Entry = Entry(at: nat, msg: GroupMsg)

  datatype Lock = Free | Writer(t: Tid) | Reader

  /** Where the listener goroutine of a group is. */
  datatype Listener =
    | Receive                                  // waiting on the channel
    | Knock(e: Entry)                          // wants the read lock to fan out e
    | Fan(e: Entry, todo: set<Uid>)            // holds the read lock; todo not handled yet
    | TearUnmap                                // channel closed and drained: deferred teardown
    | TearClose
    | Exited

  datatype Group = Group(
    gid: Gid, alive: bool, users: set<Uid>, chan: seq<Entry>, closes: nat,
    lock: Lock, listener: Listener, born: nat)

  datatype JoinPc = JLook | JMake | JEnter(g: nat) | JNote
  datatype LeavePc = LLook | LKnock(g: nat) | LUnmap(g: nat) | LKill(g: nat) | LClose(g: nat) | LUnlock(g: nat) | LNote
  datatype PostPc = PLook | PCheck(g: nat) | PPush(g: nat)

  datatype Thread =
    | Join(uid: Uid, gid: Gid, jpc: JoinPc, met: seq<nat>, deadBefore: set<nat>)
    | Leave(uid: Uid, gid: Gid, all: bool, lpc: LeavePc)
    | OutAll(uid: Uid)      // about to take the client's group lock
    | OutLoop(uid: Uid)     // holds it, between two groups
    | Post(pgid: Gid, msg: GroupMsg, ppc: PostPc)

  /** One attempt to hand a group message to a member; `accepted` when it entered the client's queue. */
  datatype Delivery = Delivery(gid: Gid, g: nat, at: nat, msg: GroupMsg, uid: Uid, accepted: bool)

  datatype State = State(
    cap: nat,                       // GroupMsgChanMax
    groups: seq<Group>,             // every group object ever created
    mapped: map<Gid, nat>,          // TGroupManager.TGroups
    joined: map<Uid, set<Gid>>,     // Client.TGroup
    held: map<Uid, Tid>,            // Client.TGroupLock, when held across steps
    threads: map<Tid, Thread>,
    clock: nat,
    log: seq<Delivery>)

  datatype Step =
    | StartJoin(t: Tid, uid: Uid, gid: Gid)
    | StartLeave(t: Tid, uid: Uid, gid: Gid)
    | StartOutAll(t: Tid, uid: Uid)
    | StartPost(t: Tid, gid: Gid, msg: GroupMsg)
    | Run(t: Tid)
    | RunOut(t: Tid, gid: Gid)                       // the next group of a leave-all
    | Listen(g: nat)
    | Deliver(g: nat, uid: Uid, accepted: bool)

  ghost predicate Init(s: State) {
    && s.cap > 0
    && s.groups == [] && s.mapped == map[] && s.joined == map[] && s.held == map[] && s.threads == map[]
    && s.clock == 0 && s.log == []
  }

  function JoinedBy(s: State, uid: Uid): set<Gid> {
    if uid in s.joined then s.joined[uid] else {}
  }

  predicate IsMapped(s: State, g: nat) {
    g < |s.groups| && s.groups[g].gid in s.mapped && s.mapped[s.groups[g].gid] == g
  }

  function DeadGroups(s: State): set<nat> {
    set g: nat | g < |s.groups| && !s.groups[g].alive
  }

  function NewGroup(gid: Gid, born: nat): Group {
    Group(gid, true, {}, [], 0, Free, Receive, born)
  }

  function SetThread(s: State, t: Tid, th: Thread): State {
    s.(threads := s.threads[t := th])
  }

  function EndThread(s: State, t: Tid): State {
    s.(threads := s.threads - {t})
  }

  function SetGroup(s: State, g: nat, grp: Group): State
    requires g < |s.groups|
  {
    s.(groups := s.groups[g := grp])
  }

  // ---- UserJoinTGroup, then the client's own note ------------------------------------------

  predicate JoinReady(s: State, th: Thread)
    requires th.Join?
  {
    match th.jpc
    case JLook => true
    case JMake => true
    case JEnter(g) => g < |s.groups| && s.groups[g].lock.Free?
    case JNote => th.uid !in s.held
  }

  function JoinNoteStep(s: State, t: Tid, th: Thread): State
    requires th.Join?
  {
    EndThread(s.(joined := s.joined[th.uid := JoinedBy(s, th.uid) + {th.gid}]), t)
  }

  function JoinStep(s: State, t: Tid, th: Thread): State
    requires th.Join? && JoinReady(s, th)
  {
    match th.jpc
    case JLook =>
      SetThread(s, t, th.(jpc := if th.gid in s.mapped then JEnter(s.mapped[th.gid]) else JMake))
    case JMake =>
      if th.gid in s.mapped then
        SetThread(s, t, th.(jpc := JEnter(s.mapped[th.gid])))
      else
        SetThread(
          s.(groups := s.groups + [NewGroup(th.gid, s.clock)], mapped := s.mapped[th.gid := |s.groups|]),
          t, th.(jpc := JEnter(|s.groups|)))
    case JEnter(g) =>
      var grp := s.groups[g];
      if grp.alive then
        SetThread(SetGroup(s, g, grp.(users := grp.users + {th.uid})), t, th.(jpc := JNote))
      else
        SetThread(s, t, th.(jpc := JLook, met := th.met + [g]))
    case JNote => JoinNoteStep(s, t, th)
  }

  // ---- UserOutTGroup, then the client's own note -------------------------------------------

  predicate LeaveReady(s: State, th: Thread)
    requires th.Leave?
  {
    match th.lpc
    case LKnock(g) => g < |s.groups| && s.groups[g].lock.Free?
    case LNote => th.all || th.uid !in s.held
    case LLook => true
    case _ => th.lpc.g < |s.groups|
  }

  function Unmap(s: State, g: nat): State
    requires g < |s.groups|
  {
    if IsMapped(s, g) then s.(mapped := s.mapped - {s.groups[g].gid}) else s
  }

  /** UserLeave up to the test for emptiness; an emptied group stays write-locked. */
  function KnockStep(s: State, t: Tid, th: Thread, g: nat): State
    requires th.Leave? && g < |s.groups|
  {
    var grp := s.groups[g].(users := s.groups[g].users - {th.uid});
    if grp.users == {} then
      SetThread(SetGroup(s, g, grp.(lock := Writer(t))), t, th.(lpc := LUnmap(g)))
    else
      SetThread(SetGroup(s, g, grp), t, th.(lpc := LNote))
  }

  /** DeleteTGroup under the users lock: unmap, then State = 2, then close, then unlock. */
  function LockedStep(s: State, t: Tid, th: Thread, g: nat): State
    requires th.Leave? && g < |s.groups|
  {
    match th.lpc
    case LUnmap(_) =>
      SetThread(Unmap(s, g), t, th.(lpc := LKill(g)))
    case LKill(_) =>
      if s.groups[g].alive then
        SetThread(SetGroup(s, g, s.groups[g].(alive := false)), t, th.(lpc := LClose(g)))
      else
        SetThread(s, t, th.(lpc := LUnlock(g)))
    case LClose(_) =>
      SetThread(SetGroup(s, g, s.groups[g].(closes := s.groups[g].closes + 1)), t, th.(lpc := LUnlock(g)))
    case _ =>
      SetThread(SetGroup(s, g, s.groups[g].(lock := Free)), t, th.(lpc := LNote))
  }

  function LeaveNoteStep(s: State, t: Tid, th: Thread): State
    requires th.Leave?
  {
    var s1 := s.(joined := s.joined[th.uid := JoinedBy(s, th.uid) - {th.gid}]);
    if th.all then SetThread(s1, t, OutLoop(th.uid)) else EndThread(s1, t)
  }

  function LeaveStep(s: State, t: Tid, th: Thread): State
    requires th.Leave? && LeaveReady(s, th)
  {
    match th.lpc
    case LLook =>
      SetThread(s, t, th.(lpc := if th.gid in s.mapped then LKnock(s.mapped[th.gid]) else LNote))
    case LKnock(g) => KnockStep(s, t, th, g)
    case LNote => LeaveNoteStep(s, t, th)
    case _ => LockedStep(s, t, th, th.lpc.g)
  }

  // ---- SendMessageToTGroup -----------------------------------------------------------------

  predicate PostReady(s: State, th: Thread)
    requires th.Post?
  {
    match th.ppc
    case PLook => true
    case PCheck(g) => g < |s.groups|
    case PPush(g) => g < |s.groups| && (s.groups[g].closes > 0 || |s.groups[g].chan| < s.cap)
  }

  /** A send on a closed channel panics and is recovered: the call ends without effect. */
  function PostStep(s: State, t: Tid, th: Thread): State
    requires th.Post? && PostReady(s, th)
  {
    match th.ppc
    case PLook =>
      if th.pgid in s.mapped then SetThread(s, t, th.(ppc := PCheck(s.mapped[th.pgid]))) else EndThread(s, t)
    case PCheck(g) =>
      if s.groups[g].alive then SetThread(s, t, th.(ppc := PPush(g))) else EndThread(s, t)
    case PPush(g) =>
      if s.groups[g].closes > 0 then EndThread(s, t)
      else
        var grp := s.groups[g];
        EndThread(
          SetGroup(s, g, grp.(chan := grp.chan + [Entry(s.clock, th.msg)])).(clock := s.clock + 1), t)
  }

  // ---- ListenSendChan and SendToUsers ------------------------------------------------------

  predicate CanListen(grp: Group) {
    match grp.listener
    case Receive => grp.chan != [] || grp.closes > 0
    case Knock(_) => grp.lock.Free?
    case Fan(_, todo) => todo == {}
    case TearUnmap => true
    case TearClose => true
    case Exited => false
  }

  /** The group object after its listener's next step. */
  function Heard(grp: Group): Group {
    match grp.listener
    case Receive =>
      if grp.chan != [] then grp.(chan := grp.chan[1..], listener := Knock(grp.chan[0]))
      else grp.(listener := TearUnmap)
    case Knock(e) =>
      if grp.alive then grp.(lock := Reader, listener := Fan(e, grp.users - {e.msg.exceptUid}))
      else grp.(listener := Receive)
    case Fan(_, _) => grp.(lock := Free, listener := Receive)
    case TearUnmap => grp.(listener := TearClose)
    case TearClose =>
      if grp.alive then grp.(alive := false, closes := grp.closes + 1, listener := Exited)
      else grp.(listener := Exited)
    case Exited => grp
  }

  predicate ListenReady(s: State, g: nat)
    requires g < |s.groups|
  {
    CanListen(s.groups[g])
  }

  function ListenStep(s: State, g: nat): State
    requires g < |s.groups| && ListenReady(s, g)
  {
    SetGroup(if s.groups[g].listener.TearUnmap? then Unmap(s, g) else s, g, Heard(s.groups[g]))
  }

  predicate DeliverReady(s: State, g: nat, uid: Uid)
    requires g < |s.groups|
  {
    s.groups[g].listener.Fan? && uid in s.groups[g].listener.todo
  }

  function DeliverStep(s: State, g: nat, uid: Uid, accepted: bool): State
    requires g < |s.groups| && DeliverReady(s, g, uid)
  {
    var grp := s.groups[g];
    var Fan(e, todo) := grp.listener;
    SetGroup(s, g, grp.(listener := Fan(e, todo - {uid})))
      .(log := s.log + [Delivery(grp.gid, g, e.at, e.msg, uid, accepted)])
  }

  // ---- the whole system --------------------------------------------------------------------

  predicate RunReady(s: State, th: Thread) {
    match th
    case Join(_, _, _, _, _) => JoinReady(s, th)
    case Leave(_, _, _, _) => LeaveReady(s, th)
    case Post(_, _, _) => PostReady(s, th)
    case OutAll(uid) => uid !in s.held
    case OutLoop(uid) => JoinedBy(s, uid) == {}
  }

  function RunStep(s: State, t: Tid, th: Thread): State
    requires RunReady(s, th)
  {
    match th
    case Join(_, _, _, _, _) => JoinStep(s, t, th)
    case Leave(_, _, _, _) => LeaveStep(s, t, th)
    case Post(_, _, _) => PostStep(s, t, th)
    case OutAll(uid) => SetThread(s.(held := s.held[uid := t]), t, OutLoop(uid))
    case OutLoop(uid) => EndThread(s.(held := s.held - {uid}), t)
  }

  predicate Enabled(s: State, st: Step) {
    match st
    case StartJoin(t, _, _) => t !in s.threads
    case StartLeave(t, _, _) => t !in s.threads
    case StartOutAll(t, _) => t !in s.threads
    case StartPost(t, _, _) => t !in s.threads
    case Run(t) => t in s.threads && RunReady(s, s.threads[t])
    case RunOut(t, gid) => t in s.threads && s.threads[t].OutLoop? && gid in JoinedBy(s, s.threads[t].uid)
    case Listen(g) => g < |s.groups| && ListenReady(s, g)
    case Deliver(g, uid, _) => g < |s.groups| && DeliverReady(s, g, uid)
  }

  function Apply(s: State, st: Step): State
    requires Enabled(s, st)
  {
    match st
    case StartJoin(t, uid, gid) => SetThread(s, t, Join(uid, gid, JLook, [], DeadGroups(s)))
    case StartLeave(t, uid, gid) => SetThread(s, t, Leave(uid, gid, false, LLook))
    case StartOutAll(t, uid) => SetThread(s, t, OutAll(uid))
    case StartPost(t, gid, msg) => SetThread(s, t, Post(gid, msg, PLook))
    case Run(t) => RunStep(s, t, s.threads[t])
    case RunOut(t, gid) => SetThread(s, t, Leave(s.threads[t].uid, gid, true, LLook))
    case Listen(g) => ListenStep(s, g)
    case Deliver(g, uid, accepted) => DeliverStep(s, g, uid, accepted)
  }

  ghost predicate Next(s: State, s': State) {
    exists st: Step :: Enabled(s, st) && s' == Apply(s, st)
  }

  ghost predicate Linked(tr: seq<State>, i: nat)
    requires i + 1 < |tr|
  {
    Next(tr[i], tr[i + 1])
  }

  /** A run: any interleaving of any calls, from an empty node. */
  ghost predicate IsRun(tr: seq<State>) {
    && |tr| > 0 && Init(tr[0])
    && forall i: nat :: i + 1 < |tr| ==> Linked(tr, i)
  }
}
