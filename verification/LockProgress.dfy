/** Any number of calls and group listeners running on the locks of LockOrder: mutual exclusion, the
    lock order and freedom from deadlock, in every reachable state. */
module LockProgress {
  import opened LockOrder
  import Waiting

  datatype Tid = Caller(n: nat) | Listener(g: nat)

  /** What is left of the script, and the locks in hand, with whether each is held for writing. */
  datatype Thread = Thread(rest: Script, hand: map<LockId, bool>)

  datatype Chan = Chan(count: nat, closed: bool)

  /** `pending` has, for each lock, the writer that has announced itself or holds it. A listener
      between two messages is not in `threads`; one that has left its loop is in `gone`. */
  datatype State = State(
    cap: nat, threads: map<Tid, Thread>, pending: map<LockId, Tid>, chans: map<nat, Chan>, gone: set<nat>)

  datatype Step =
    | Start(n: nat, call: Call)
    | Receive(g: nat, targets: seq<Target>)      // the listener takes a message
    | Drained(g: nat)                            // its channel is closed and empty: teardown
    | Announce(t: Tid)                           // a writer bars new readers
    | Act(t: Tid)
    | End(t: Tid)

  ghost predicate Init(s: State) {
    s.cap > 0 && s.threads == map[] && s.pending == map[] && s.chans == map[] && s.gone == {}
  }

  function ChanOf(s: State, g: nat): Chan {
    if g in s.chans then s.chans[g] else Chan(0, false)
  }

  function Held(th: Thread): set<LockId> {
    th.hand.Keys
  }

  predicate Owns(th: Thread, l: LockId) {
    l in th.hand && th.hand[l]
  }

  predicate Shares(th: Thread, l: LockId) {
    l in th.hand && !th.hand[l]
  }

  /** The lock a thread waits for as a writer. */
  predicate Wants(th: Thread, l: LockId) {
    th.rest != [] && th.rest[0] == Acquire(l, true)
  }

  predicate Unread(s: State, l: LockId) {
    forall u :: u in s.threads ==> !Shares(s.threads[u], l)
  }

  predicate CanAct(s: State, t: Tid)
    requires t in s.threads && s.threads[t].rest != []
  {
    match s.threads[t].rest[0]
    case Acquire(l, write) => if write then l in s.pending && s.pending[l] == t && Unread(s, l) else l !in s.pending
    case Push(g) => ChanOf(s, g).closed || ChanOf(s, g).count < s.cap
    case _ => true
  }

  predicate Enabled(s: State, st: Step) {
    match st
    case Start(n, _) => Caller(n) !in s.threads
    case Receive(g, _) => Listener(g) !in s.threads && g !in s.gone && ChanOf(s, g).count > 0
    case Drained(g) => Listener(g) !in s.threads && g !in s.gone && ChanOf(s, g) == Chan(0, true)
    case Announce(t) => t in s.threads && s.threads[t].rest != [] && s.threads[t].rest[0].Acquire? &&
      s.threads[t].rest[0].write && s.threads[t].rest[0].l !in s.pending
    case Act(t) => t in s.threads && s.threads[t].rest != [] && CanAct(s, t)
    case End(t) => t in s.threads && s.threads[t].rest == []
  }

  function Acted(s: State, t: Tid): State
    requires t in s.threads && s.threads[t].rest != [] && CanAct(s, t)
  {
    var th, op := s.threads[t].(rest := s.threads[t].rest[1..]), s.threads[t].rest[0];
    match op
    case Acquire(l, write) => s.(threads := s.threads[t := th.(hand := th.hand[l := write])])
    case Release(l) =>
      s.(threads := s.threads[t := th.(hand := th.hand - {l})],
         pending := if Owns(th, l) then s.pending - {l} else s.pending)
    case Push(g) =>
      var ch := ChanOf(s, g);
      s.(threads := s.threads[t := th], chans := s.chans[g := if ch.closed then ch else ch.(count := ch.count + 1)])
    case Touch(_, _) => s.(threads := s.threads[t := th])
    case CloseChan(g) =>
      s.(threads := s.threads[t := th], chans := s.chans[g := ChanOf(s, g).(closed := true)])
  }

  function Apply(s: State, st: Step): State
    requires Enabled(s, st)
  {
    match st
    case Start(n, call) => s.(threads := s.threads[Caller(n) := Thread(ScriptOf(call), map[])])
    case Receive(g, targets) =>
      s.(threads := s.threads[Listener(g) := Thread(SendToUsers(g, targets), map[])],
         chans := s.chans[g := ChanOf(s, g).(count := ChanOf(s, g).count - 1)])
    case Drained(g) =>
      s.(threads := s.threads[Listener(g) := Thread(DeleteTGroup(g), map[])], gone := s.gone + {g})
    case Announce(t) => s.(pending := s.pending[s.threads[t].rest[0].l := t])
    case Act(t) => Acted(s, t)
    case End(t) => s.(threads := s.threads - {t})
  }

  ghost predicate Next(s: State, s': State) {
    exists st: Step :: Enabled(s, st) && s' == Apply(s, st)
  }

  ghost predicate IsRun(tr: seq<State>) {
    |tr| > 0 && Init(tr[0]) && forall i: nat :: i + 1 < |tr| ==> Next(tr[i], tr[i + 1])
  }

  // ---- invariant ---------------------------------------------------------------------------

  predicate OnePerRank(held: set<LockId>) {
    forall a, b :: a in held && b in held && Rank(a) == Rank(b) ==> a == b
  }

  ghost predicate ThreadOk(s: State, t: Tid)
    requires t in s.threads
  {
    var th := s.threads[t];
    && Disciplined(th.hand, th.rest) && OnePerRank(Held(th))
    && (forall l :: Owns(th, l) ==> l in s.pending && s.pending[l] == t)
    && (t.Listener? ==> Quiet(th.rest))
  }

  ghost predicate LockOk(s: State, l: LockId)
    requires l in s.pending
  {
    && s.pending[l] in s.threads
    && (Owns(s.threads[s.pending[l]], l) || Wants(s.threads[s.pending[l]], l))
    && (Owns(s.threads[s.pending[l]], l) ==> Unread(s, l))
  }

  ghost predicate Inv(s: State) {
    && s.cap > 0
    && (forall t :: t in s.threads ==> ThreadOk(s, t))
    && (forall l :: l in s.pending ==> LockOk(s, l))
    && (forall g :: g in s.gone ==> ChanOf(s, g).closed)
  }

  lemma {:induction false} QuietSections(blocks: seq<Script>)
    requires forall i :: 0 <= i < |blocks| ==> Quiet(blocks[i])
    ensures Quiet(Sections(blocks))
  {
    if blocks != [] { QuietSections(blocks[1..]); }
  }

  lemma FanOutIsQuiet(g: nat, targets: seq<Target>)
    ensures Quiet(SendToUsers(g, targets)) && Disciplined(map[], SendToUsers(g, targets))
  {
    QuietSections(seq(|targets|, i requires 0 <= i < |targets| => OfferTo(targets[i])));
    NeutralFanOut(g, targets);
    NeutralIsDisciplined(SendToUsers(g, targets));
  }

  lemma TeardownIsQuiet(g: nat)
    ensures Quiet(DeleteTGroup(g)) && Disciplined(map[], DeleteTGroup(g))
  {
    NeutralDelete(g, 0);
    NeutralIsDisciplined(DeleteTGroup(g));
  }

  /** A new thread holds nothing and waits for nothing yet. */
  lemma NewThreadKeepsInv(s: State, s': State, t: Tid, ops: Script)
    requires Inv(s) && t !in s.threads && Disciplined(map[], ops) && (t.Listener? ==> Quiet(ops))
    requires s'.cap == s.cap && s'.threads == s.threads[t := Thread(ops, map[])] && s'.pending == s.pending
    requires forall g :: g in s'.gone ==> ChanOf(s', g).closed
    ensures Inv(s')
  {
    forall u | u in s'.threads ensures ThreadOk(s', u) { if u != t { assert ThreadOk(s, u); } }
    forall l | l in s'.pending ensures LockOk(s', l) { assert LockOk(s, l); }
  }

  lemma AnnounceKeepsInv(s: State, t: Tid)
    requires Inv(s) && Enabled(s, Announce(t))
    ensures Inv(Apply(s, Announce(t)))
  {
    var s', l := Apply(s, Announce(t)), s.threads[t].rest[0].l;
    assert Wants(s.threads[t], l);
    forall u | u in s'.threads ensures ThreadOk(s', u) { assert ThreadOk(s, u); }
    forall k | k in s'.pending ensures LockOk(s', k) {
      if k == l { assert ThreadOk(s, t); } else { assert LockOk(s, k); }
    }
  }

  lemma EndKeepsInv(s: State, t: Tid)
    requires Inv(s) && Enabled(s, End(t))
    ensures Inv(Apply(s, End(t)))
  {
    var s' := Apply(s, End(t));
    assert ThreadOk(s, t);
    forall u | u in s'.threads ensures ThreadOk(s', u) { assert ThreadOk(s, u); }
    forall l | l in s'.pending ensures LockOk(s', l) { assert LockOk(s, l); }
  }

  lemma ActKeepsThread(s: State, t: Tid)
    requires Enabled(s, Act(t)) && ThreadOk(s, t)
    ensures ThreadOk(Acted(s, t), t)
  {
  }

  /** A step of one thread that gives up no announcement but its own. */
  lemma OthersKeepThreads(s: State, s': State, t: Tid)
    requires Inv(s) && t in s.threads && t in s'.threads && s'.threads == s.threads[t := s'.threads[t]] &&
      ThreadOk(s', t)
    requires forall l :: l in s.pending && s.pending[l] != t ==> l in s'.pending && s'.pending[l] == s.pending[l]
    ensures forall u :: u in s'.threads ==> ThreadOk(s', u)
  {
  }

  lemma ActKeepsUnread(s: State, t: Tid, l: LockId)
    requires Enabled(s, Act(t)) && Unread(s, l) && s.threads[t].rest[0] != Acquire(l, false)
    ensures Unread(Acted(s, t), l)
  {
    var s' := Acted(s, t);
    forall u | u in s'.threads ensures !Shares(s'.threads[u], l) { assert !Shares(s.threads[u], l); }
  }

  lemma ActKeepsLock(s: State, t: Tid, l: LockId)
    requires Enabled(s, Act(t)) && ThreadOk(s, t) && l in s.pending && LockOk(s, l) && l in Acted(s, t).pending
    ensures LockOk(Acted(s, t), l)
  {
    if Unread(s, l) { ActKeepsUnread(s, t, l); }
  }

  lemma ActKeepsInv(s: State, t: Tid)
    requires Inv(s) && Enabled(s, Act(t))
    ensures Inv(Acted(s, t))
  {
    var s' := Acted(s, t);
    ActKeepsThread(s, t);
    OthersKeepThreads(s, s', t);
    forall l | l in s'.pending ensures LockOk(s', l) { ActKeepsLock(s, t, l); }
  }

  lemma StepKeepsInv(s: State, st: Step)
    requires Inv(s) && Enabled(s, st)
    ensures Inv(Apply(s, st))
  {
    match st
    case Start(n, call) =>
      CallIsDisciplined(call);
      NewThreadKeepsInv(s, Apply(s, st), Caller(n), ScriptOf(call));
    case Receive(g, targets) =>
      FanOutIsQuiet(g, targets);
      NewThreadKeepsInv(s, Apply(s, st), Listener(g), SendToUsers(g, targets));
    case Drained(g) =>
      TeardownIsQuiet(g);
      NewThreadKeepsInv(s, Apply(s, st), Listener(g), DeleteTGroup(g));
    case Announce(t) => AnnounceKeepsInv(s, t);
    case End(t) => EndKeepsInv(s, t);
    case Act(t) => ActKeepsInv(s, t);
  }

  lemma {:induction false} RunKeepsInv(tr: seq<State>, i: nat)
    requires IsRun(tr) && i < |tr|
    ensures Inv(tr[i])
  {
    if i > 0 {
      RunKeepsInv(tr, i - 1);
      assert Next(tr[i - 1], tr[i - 1 + 1]);
      var st :| Enabled(tr[i - 1], st) && tr[i] == Apply(tr[i - 1], st);
      StepKeepsInv(tr[i - 1], st);
    }
  }

  // ---- what holds in every reachable state -------------------------------------------------

  /** A lock held for writing is held by nobody else. */
  lemma MutualExclusion(tr: seq<State>, i: nat, t: Tid, u: Tid, l: LockId)
    requires IsRun(tr) && i < |tr| && t in tr[i].threads && u in tr[i].threads
    requires Owns(tr[i].threads[t], l) && l in Held(tr[i].threads[u])
    ensures t == u
  {
    RunKeepsInv(tr, i);
    assert ThreadOk(tr[i], t) && ThreadOk(tr[i], u) && LockOk(tr[i], l);
  }

  /** No data race: two threads about to access what one lock guards, one of them to change it, are the
      same thread. */
  lemma NoRace(tr: seq<State>, i: nat, t: Tid, u: Tid, l: LockId, write: bool)
    requires IsRun(tr) && i < |tr| && t in tr[i].threads && u in tr[i].threads
    requires tr[i].threads[t].rest != [] && tr[i].threads[t].rest[0] == Touch(l, true)
    requires tr[i].threads[u].rest != [] && tr[i].threads[u].rest[0] == Touch(l, write)
    ensures t == u
  {
    RunKeepsInv(tr, i);
    assert ThreadOk(tr[i], t) && ThreadOk(tr[i], u);
    MutualExclusion(tr, i, t, u, l);
  }

  /** A thread holds at most one lock of each rank, takes a lock only with lower ranks in hand, and
      sends on a group's channel only with no lock in hand. */
  lemma OrderIsKept(tr: seq<State>, i: nat, t: Tid)
    requires IsRun(tr) && i < |tr| && t in tr[i].threads
    ensures OnePerRank(Held(tr[i].threads[t]))
    ensures tr[i].threads[t].rest == [] ==> Held(tr[i].threads[t]) == {}
    ensures tr[i].threads[t].rest != [] ==>
      match tr[i].threads[t].rest[0]
      case Acquire(l, _) => forall h :: h in Held(tr[i].threads[t]) ==> Rank(h) < Rank(l)
      case Push(_) => Held(tr[i].threads[t]) == {}
      case _ => true
  {
    RunKeepsInv(tr, i);
    assert ThreadOk(tr[i], t);
  }

  // ---- no deadlock -------------------------------------------------------------------------

  predicate CanMove(s: State, st: Step) {
    !st.Start? && Enabled(s, st)
  }

  /** The thread that takes the step. */
  function Actor(st: Step): Tid {
    match st
    case Start(n, _) => Caller(n)
    case Receive(g, _) => Listener(g)
    case Drained(g) => Listener(g)
    case Announce(t) => t
    case Act(t) => t
    case End(t) => t
  }

  ghost predicate Moves(s: State, t: Tid) {
    exists st :: CanMove(s, st) && Actor(st) == t
  }

  /** Thread t is stuck until u does something: u has announced or holds the lock that t wants, or u
      reads the lock that t has announced itself for, or u is the listener of the full channel that t
      sends on. */
  predicate WaitsFor(s: State, t: Tid, u: Tid) {
    && t in s.threads && s.threads[t].rest != [] && !CanAct(s, t)
    && match s.threads[t].rest[0]
       case Acquire(l, _) =>
         l in s.pending && if s.pending[l] == t then u in s.threads && Shares(s.threads[u], l) else u == s.pending[l]
       case Push(g) => u == Listener(g)
       case _ => false
  }

  ghost function Waits(s: State): (Tid, Tid) -> bool {
    (a, b) => WaitsFor(s, a, b)
  }

  ghost function Able(s: State): Tid -> bool {
    a => Moves(s, a)
  }

  /** Each waits for the next, and the last can move. */
  ghost predicate Chain(s: State, ts: seq<Tid>) {
    Waiting.Chain(Waits(s), Able(s), ts)
  }

  lemma One(s: State, st: Step) returns (ts: seq<Tid>)
    requires CanMove(s, st)
    ensures ts == [Actor(st)] && Chain(s, ts)
  {
    ts := [Actor(st)];
  }

  /** Whoever holds a lock moves, or waits for a lock of higher rank. */
  lemma {:induction false} HolderChain(s: State, t: Tid, l: LockId) returns (ts: seq<Tid>)
    requires Inv(s) && t in s.threads && l in Held(s.threads[t])
    ensures Chain(s, ts) && ts[0] == t && |ts| <= 2 * (3 - Rank(l)) + 1
    decreases 3 - Rank(l), 0
  {
    assert ThreadOk(s, t);
    if s.threads[t].rest[0].Acquire? { ts := WaiterChain(s, t); } else { ts := One(s, Act(t)); }
  }

  /** Whoever wants a lock takes it, or waits for the writer that bars it, which waits at most for a
      reader that bars it in turn. */
  lemma {:induction false} WaiterChain(s: State, t: Tid) returns (ts: seq<Tid>)
    requires Inv(s) && t in s.threads && s.threads[t].rest != [] && s.threads[t].rest[0].Acquire?
    ensures Chain(s, ts) && ts[0] == t && |ts| <= 2 * (3 - Rank(s.threads[t].rest[0].l)) + 3
    decreases 3 - Rank(s.threads[t].rest[0].l), 2
  {
    var l := s.threads[t].rest[0].l;
    if l !in s.pending {
      ts := One(s, if s.threads[t].rest[0].write then Announce(t) else Act(t));
    } else if s.pending[l] == t {
      assert LockOk(s, l) && ThreadOk(s, t);
      ts := WriterChain(s, l);
    } else {
      var w := s.pending[l];
      assert LockOk(s, l);
      var rest;
      if Owns(s.threads[w], l) { rest := HolderChain(s, w, l); } else { rest := WriterChain(s, l); }
      ts := Waiting.Longer(Waits(s), Able(s), t, rest);
    }
  }

  lemma {:induction false} WriterChain(s: State, l: LockId) returns (ts: seq<Tid>)
    requires Inv(s) && l in s.pending && s.pending[l] in s.threads && Wants(s.threads[s.pending[l]], l)
    ensures Chain(s, ts) && ts[0] == s.pending[l] && |ts| <= 2 * (3 - Rank(l)) + 2
    decreases 3 - Rank(l), 1
  {
    var w := s.pending[l];
    if Unread(s, l) {
      ts := One(s, Act(w));
    } else {
      var u :| u in s.threads && Shares(s.threads[u], l);
      var rest := HolderChain(s, u, l);
      ts := Waiting.Longer(Waits(s), Able(s), w, rest);
    }
  }

  /** A thread that is not about to send. */
  lemma BusyChain(s: State, t: Tid) returns (ts: seq<Tid>)
    requires Inv(s) && t in s.threads && (s.threads[t].rest != [] ==> !s.threads[t].rest[0].Push?)
    ensures Chain(s, ts) && ts[0] == t && |ts| <= 9
  {
    if s.threads[t].rest == [] {
      ts := One(s, End(t));
    } else if s.threads[t].rest[0].Acquire? {
      ts := WaiterChain(s, t);
    } else {
      ts := One(s, Act(t));
    }
  }

  /** The listener of a group with a message queued takes it, or is busy with an earlier one. */
  lemma ListenerChain(s: State, g: nat) returns (ts: seq<Tid>)
    requires Inv(s) && ChanOf(s, g).count > 0 && g !in s.gone
    ensures Chain(s, ts) && ts[0] == Listener(g) && |ts| <= 9
  {
    if Listener(g) in s.threads {
      assert ThreadOk(s, Listener(g));
      ts := BusyChain(s, Listener(g));
    } else {
      ts := One(s, Receive(g, []));
    }
  }

  lemma ThreadChain(s: State, t: Tid) returns (ts: seq<Tid>)
    requires Inv(s) && t in s.threads
    ensures Chain(s, ts) && ts[0] == t && |ts| <= 10
  {
    if s.threads[t].rest != [] && s.threads[t].rest[0].Push? {
      if CanAct(s, t) {
        ts := One(s, Act(t));
      } else {
        var rest := ListenerChain(s, s.threads[t].rest[0].g);
        ts := Waiting.Longer(Waits(s), Able(s), t, rest);
      }
    } else {
      ts := BusyChain(s, t);
    }
  }

  /** No reachable state is deadlocked, not even in part: every unfinished thread can take its next
      step, or waits through a chain of at most nine others, each waiting for the next, for one that
      can. The same holds for the listener of every group with a message queued. */
  lemma NoDeadlock(tr: seq<State>, i: nat, t: Tid) returns (ts: seq<Tid>)
    requires IsRun(tr) && i < |tr|
    requires t in tr[i].threads || (t.Listener? && t.g !in tr[i].gone && ChanOf(tr[i], t.g).count > 0)
    ensures Chain(tr[i], ts) && ts[0] == t && |ts| <= 10
  {
    RunKeepsInv(tr, i);
    if t in tr[i].threads { ts := ThreadChain(tr[i], t); } else { ts := ListenerChain(tr[i], t.g); }
  }
}
