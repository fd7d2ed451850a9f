/** No reachable state of the group protocol is deadlocked. */
module GroupProgress {
  import opened Types
  import opened GroupProtocol
  import opened GroupInvariant
  import opened GroupHistory
  import opened GroupTheorems
  import Waiting

  /** A step of a call in flight or of a listener: not the start of a new call. */
  predicate Advances(st: Step) {
    st.Run? || st.RunOut? || st.Listen? || st.Deliver?
  }

  predicate CanMove(s: State, st: Step) {
    Advances(st) && Enabled(s, st)
  }

  /** A call, or the listener of a group. */
  datatype Actor = Call(t: Tid) | Ear(g: nat)

  function ActorOf(st: Step): Actor {
    match st
    case Listen(g) => Ear(g)
    case Deliver(g, _, _) => Ear(g)
    case _ => Call(st.t)
  }

  ghost predicate Moves(s: State, a: Actor) {
    exists st :: CanMove(s, st) && ActorOf(st) == a
  }

  /** Who holds the users lock of a group. */
  function Holder(s: State, g: nat): Actor
    requires g < |s.groups|
  {
    if s.groups[g].lock.Writer? then Call(s.groups[g].lock.t) else Ear(g)
  }

  /** Actor b holds the users lock that a wants. */
  predicate BarredFrom(s: State, g: nat, b: Actor) {
    g < |s.groups| && !s.groups[g].lock.Free? && b == Holder(s, g)
  }

  /** Actor b holds the group lock of the client that a wants. */
  predicate BarredBy(s: State, uid: Uid, b: Actor) {
    uid in s.held && b == Call(s.held[uid])
  }

  /** What a wants next is in the hands of b: a users lock, a client's group lock, or room in a full
      channel. */
  predicate WaitsFor(s: State, a: Actor, b: Actor) {
    match a
    case Ear(g) => g < |s.groups| && s.groups[g].listener.Knock? && BarredFrom(s, g, b)
    case Call(t) =>
      && t in s.threads
      && match s.threads[t]
         case Join(uid, _, jpc, _, _) =>
           (jpc.JEnter? && BarredFrom(s, jpc.g, b)) || (jpc.JNote? && BarredBy(s, uid, b))
         case Leave(uid, _, all, lpc) =>
           (lpc.LKnock? && BarredFrom(s, lpc.g, b)) || (lpc.LNote? && !all && BarredBy(s, uid, b))
         case OutAll(uid) => BarredBy(s, uid, b)
         case OutLoop(_) => false
         case Post(_, _, ppc) => ppc.PPush? && !PostReady(s, s.threads[t]) && b == Ear(ppc.g)
  }

  ghost function Waits(s: State): (Actor, Actor) -> bool {
    (a, b) => WaitsFor(s, a, b)
  }

  ghost function Able(s: State): Actor -> bool {
    a => Moves(s, a)
  }

  /** Each waits for the next, and the last can move. */
  ghost predicate Chain(s: State, xs: seq<Actor>) {
    Waiting.Chain(Waits(s), Able(s), xs)
  }

  lemma One(s: State, st: Step) returns (xs: seq<Actor>)
    requires CanMove(s, st)
    ensures xs == [ActorOf(st)] && Chain(s, xs)
  {
    xs := [ActorOf(st)];
  }

  /** Whoever holds a group's users lock can take its next step. */
  lemma HolderMoves(s: State, g: nat) returns (xs: seq<Actor>)
    requires Inv(s) && g < |s.groups| && !s.groups[g].lock.Free?
    ensures Chain(s, xs) && xs == [Holder(s, g)]
  {
    assert GroupOk(s, g);
    var grp := s.groups[g];
    if grp.lock.Writer? {
      assert ThreadOk(s, grp.lock.t);
      xs := One(s, Run(grp.lock.t));
    } else if grp.listener.todo == {} {
      xs := One(s, Listen(g));
    } else {
      var uid :| uid in grp.listener.todo;
      xs := One(s, Deliver(g, uid, true));
    }
  }

  /** A listener with something to hand out, or with a closed channel, moves or waits for a users lock. */
  lemma ListenerChain(s: State, g: nat) returns (xs: seq<Actor>)
    requires Inv(s) && g < |s.groups| && !s.groups[g].listener.Exited?
    requires Pending(s.groups[g]) != [] || s.groups[g].closes > 0
    ensures Chain(s, xs) && xs[0] == Ear(g) && |xs| <= 2
  {
    assert GroupOk(s, g);
    if ListenReady(s, g) {
      xs := One(s, Listen(g));
    } else {
      if s.groups[g].listener.Fan? {
        xs := HolderMoves(s, g);
      } else {
        var rest := HolderMoves(s, g);
        xs := Waiting.Longer(Waits(s), Able(s), Ear(g), rest);
      }
    }
  }

  lemma LeaveChain(s: State, t: Tid) returns (xs: seq<Actor>)
    requires Inv(s) && t in s.threads && s.threads[t].Leave? && (s.threads[t].all || !s.threads[t].lpc.LNote?)
    ensures Chain(s, xs) && xs[0] == Call(t) && |xs| <= 2
  {
    assert ThreadOk(s, t);
    var lpc := s.threads[t].lpc;
    if lpc.LKnock? && !s.groups[lpc.g].lock.Free? {
      var rest := HolderMoves(s, lpc.g);
      xs := Waiting.Longer(Waits(s), Able(s), Call(t), rest);
    } else {
      xs := One(s, Run(t));
    }
  }

  /** Whoever holds a client's group lock moves or waits for a users lock. */
  lemma OutAllChain(s: State, uid: Uid) returns (xs: seq<Actor>)
    requires Inv(s) && uid in s.held
    ensures Chain(s, xs) && xs[0] == Call(s.held[uid]) && |xs| <= 2
  {
    var t := s.held[uid];
    if s.threads[t].OutLoop? {
      if JoinedBy(s, uid) == {} {
        xs := One(s, Run(t));
      } else {
        var gid :| gid in JoinedBy(s, uid);
        xs := One(s, RunOut(t, gid));
      }
    } else {
      xs := LeaveChain(s, t);
    }
  }

  /** A sender waits only for room, and then for the listener of that group. */
  lemma PostChain(s: State, t: Tid) returns (xs: seq<Actor>)
    requires Inv(s) && t in s.threads && s.threads[t].Post?
    ensures Chain(s, xs) && xs[0] == Call(t) && |xs| <= 3
  {
    assert ThreadOk(s, t);
    if PostReady(s, s.threads[t]) {
      xs := One(s, Run(t));
    } else {
      var g := s.threads[t].ppc.g;
      assert GroupOk(s, g);
      assert s.groups[g].chan != [] && |Pending(s.groups[g])| > 0;
      var rest := ListenerChain(s, g);
      xs := Waiting.Longer(Waits(s), Able(s), Call(t), rest);
    }
  }

  lemma CallChain(s: State, t: Tid) returns (xs: seq<Actor>)
    requires Inv(s) && t in s.threads
    ensures Chain(s, xs) && xs[0] == Call(t) && |xs| <= 3
  {
    assert ThreadOk(s, t);
    var th := s.threads[t];
    if th.Post? {
      xs := PostChain(s, t);
    } else if th.Leave? && (th.all || !th.lpc.LNote?) {
      xs := LeaveChain(s, t);
    } else if th.OutLoop? {
      xs := OutAllChain(s, th.uid);
    } else if RunReady(s, th) {
      xs := One(s, Run(t));
    } else {
      var rest;
      if th.Join? && th.jpc.JEnter? { rest := HolderMoves(s, th.jpc.g); } else { rest := OutAllChain(s, th.uid); }
      xs := Waiting.Longer(Waits(s), Able(s), Call(t), rest);
    }
  }

  /** No reachable state is deadlocked, not even in part: every call in flight can take its next step,
      or waits through at most two others for one that can; so does every listener with a message to
      fan out or with its channel closed. */
  lemma NoDeadlock(tr: seq<State>, i: nat, a: Actor) returns (xs: seq<Actor>)
    requires IsRun(tr) && i < |tr|
    requires match a
      case Call(t) => t in tr[i].threads
      case Ear(g) =>
        && g < |tr[i].groups| && !tr[i].groups[g].listener.Exited?
        && (Pending(tr[i].groups[g]) != [] || tr[i].groups[g].closes > 0)
    ensures Chain(tr[i], xs) && xs[0] == a && |xs| <= 3
  {
    RunIsGood(tr, i);
    match a
    case Call(t) => xs := CallChain(tr[i], t);
    case Ear(g) => xs := ListenerChain(tr[i], g);
  }
}
