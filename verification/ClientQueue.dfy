/** The bounded send queue of one client, with any number of senders, the send loop, closers and the
    teardown all running at once. `State` is read without a lock before the queue is touched, so the
    check and the enqueue of one call are separate steps. */
module ClientQueue {
  import opened Types

  type Tid = nat

  /** A message, and for the record the group message it is: the gid, and the place in the order in
      which messages entered group channels. */
  datatype Origin = Origin(gid: Gid, at: nat)
  datatype Msg = Msg(bytes: Bytes, origin: Option<Origin>)

  /** Where a SafeSendMsg call is. */
  datatype Call =
    | Check(msg: Msg, async: bool)
    | Enqueue(msg: Msg)
    | Write(msg: Msg)                        // synchronous: straight to the socket
    | CloseIt                                // full queue or recovered panic

  datatype Loop = Waiting | Writing | Closing | Exited

  datatype State = State(
    cap: nat,
    online: bool,
    buffer: seq<Msg>,
    closes: nat,               // how often the channel has been closed
    tornDown: bool,            // closeOnce has run
    closing: bool,             // the teardown is about to close the channel
    loop: Loop,
    taken: seq<Msg>,         // taken from the buffer and not written: at most one message
    accepted: seq<Msg>,      // everything that entered the buffer, in order
    written: seq<Msg>,       // everything the loop wrote, in order
    calls: map<Tid, Call>)

  datatype Step =
    | Begin(t: Tid, msg: Msg, async: bool)
    | Run(t: Tid)
    | LoopStep(ok: bool)       // ok: whether the socket write succeeds
    | Close                    // StopClient, a duplicate login, ...
    | TearDown                 // OnClose, first part
    | CloseChan                // OnClose, last part

  ghost predicate Init(s: State) {
    s == State(s.cap, true, [], 0, false, false, Waiting, [], [], [], map[]) && s.cap > 0
  }

  predicate Enabled(s: State, st: Step) {
    match st
    case Begin(t, _, _) => t !in s.calls
    case Run(t) => t in s.calls
    case LoopStep(_) =>
      (match s.loop
       case Waiting => s.buffer != [] || s.closes > 0
       case Writing => true
       case Closing => true
       case Exited => false)
    case Close => true
    case TearDown => true
    case CloseChan => s.closing
  }

  function End(s: State, t: Tid): State {
    s.(calls := s.calls - {t})
  }

  function RunCall(s: State, t: Tid, c: Call): State {
    match c
    case Check(msg, async) =>
      if !s.online then End(s, t)
      else s.(calls := s.calls[t := if async then Enqueue(msg) else Write(msg)])
    case Enqueue(msg) =>
      if s.closes > 0 then s.(calls := s.calls[t := CloseIt])
      else if |s.buffer| < s.cap then End(s.(buffer := s.buffer + [msg], accepted := s.accepted + [msg]), t)
      else s.(calls := s.calls[t := CloseIt])
    case Write(_) => End(s, t)
    case CloseIt => End(s.(online := false), t)
  }

  function RunLoop(s: State, ok: bool): State
    requires Enabled(s, LoopStep(ok))
  {
    match s.loop
    case Waiting =>
      if s.buffer != [] then s.(loop := Writing, taken := [s.buffer[0]], buffer := s.buffer[1..])
      else s.(loop := Closing)
    case Writing =>
      if ok then s.(loop := Waiting, written := s.written + s.taken, taken := [])
      else s.(loop := Closing)
    case Closing => s.(loop := Exited, online := false)
  }

  function Apply(s: State, st: Step): State
    requires Enabled(s, st)
  {
    match st
    case Begin(t, msg, async) => s.(calls := s.calls[t := Check(msg, async)])
    case Run(t) => RunCall(s, t, s.calls[t])
    case LoopStep(ok) => RunLoop(s, ok)
    case Close => s.(online := false)
    case TearDown => if s.tornDown then s else s.(tornDown := true, online := false, closing := true)
    case CloseChan => s.(closing := false, closes := s.closes + 1)
  }

  /** Everything accepted is, in order: written, then the at most one message taken out, then what is
      still buffered. The buffer never exceeds its capacity; the channel is closed at most once. */
  ghost predicate Inv(s: State) {
    && s.accepted == s.written + s.taken + s.buffer
    && |s.taken| <= 1 && (s.loop.Waiting? ==> s.taken == [])
    && |s.buffer| <= s.cap
    && s.closes + (if s.closing then 1 else 0) == (if s.tornDown then 1 else 0)
    && (s.tornDown || s.loop.Exited? ==> !s.online)
  }

  lemma CallKeepsInv(s: State, t: Tid)
    requires Inv(s) && t in s.calls
    ensures Inv(RunCall(s, t, s.calls[t]))
  {
    var s', c := RunCall(s, t, s.calls[t]), s.calls[t];
    if c.Enqueue? && s.closes == 0 && |s.buffer| < s.cap {
      assert s'.accepted == s.written + s.taken + (s.buffer + [c.msg]);
    }
  }

  lemma LoopKeepsInv(s: State, ok: bool)
    requires Inv(s) && Enabled(s, LoopStep(ok))
    ensures Inv(RunLoop(s, ok))
  {
  }

  lemma StepKeepsInv(s: State, st: Step)
    requires Inv(s) && Enabled(s, st)
    ensures Inv(Apply(s, st))
    ensures !s.online ==> !Apply(s, st).online
    ensures s.accepted <= Apply(s, st).accepted && s.written <= Apply(s, st).written
  {
    match st
    case Run(t) => CallKeepsInv(s, t);
    case LoopStep(ok) => LoopKeepsInv(s, ok);
    case _ =>
  }

  ghost predicate Next(s: State, s': State) {
    exists st: Step :: Enabled(s, st) && s' == Apply(s, st)
  }

  ghost predicate Linked(tr: seq<State>, i: nat)
    requires i + 1 < |tr|
  {
    Next(tr[i], tr[i + 1])
  }

  ghost predicate IsRun(tr: seq<State>) {
    |tr| > 0 && Init(tr[0]) && forall i: nat :: i + 1 < |tr| ==> Linked(tr, i)
  }

  /** Queue conservation, at every point of every run. */
  lemma {:induction false} Conservation(tr: seq<State>, i: nat)
    requires IsRun(tr) && i < |tr|
    ensures Inv(tr[i])
  {
    if i > 0 {
      Conservation(tr, i - 1);
      assert Linked(tr, i - 1);
      var st :| Enabled(tr[i - 1], st) && tr[i] == Apply(tr[i - 1], st);
      StepKeepsInv(tr[i - 1], st);
    }
  }

  /** What has been written only grows, is never reordered, and the client never comes back online. */
  lemma {:induction false} OnlyForward(tr: seq<State>, i: nat, j: nat)
    requires IsRun(tr) && i <= j < |tr|
    ensures !tr[i].online ==> !tr[j].online
    ensures tr[i].accepted <= tr[j].accepted && tr[i].written <= tr[j].written
    decreases j - i
  {
    if i < j {
      OnlyForward(tr, i, j - 1);
      Conservation(tr, j - 1);
      assert Linked(tr, j - 1);
      var st :| Enabled(tr[j - 1], st) && tr[j] == Apply(tr[j - 1], st);
      StepKeepsInv(tr[j - 1], st);
    }
  }

  /** A call that is about to close the client stays so until its own step, which takes it offline. */
  lemma ClosingCallCloses(s: State, st: Step, t: Tid)
    requires Enabled(s, st) && t in s.calls && s.calls[t].CloseIt?
    ensures var s' := Apply(s, st); if t in s'.calls then s'.calls[t].CloseIt? else !s'.online
  {
  }

  lemma {:induction false} ClosingCallLasts(tr: seq<State>, i: nat, j: nat, t: Tid)
    requires IsRun(tr) && i <= j < |tr| && t in tr[i].calls && tr[i].calls[t].CloseIt?
    ensures !tr[j].online || (t in tr[j].calls && tr[j].calls[t].CloseIt?)
    decreases j - i
  {
    if i < j {
      ClosingCallLasts(tr, i, j - 1, t);
      assert Linked(tr, j - 1);
      var st :| Enabled(tr[j - 1], st) && tr[j] == Apply(tr[j - 1], st);
      if tr[j - 1].online { ClosingCallCloses(tr[j - 1], st, t); } else { OnlyForward(tr, j - 1, j); }
    }
  }

  /** A send that meets a full queue enqueues nothing, and whatever else happens in the meantime, once
      it has returned the client is offline and stays so. */
  lemma FullQueueCloses(tr: seq<State>, i: nat, j: nat, t: Tid)
    requires IsRun(tr) && i < j < |tr| && t in tr[i].calls && tr[i].calls[t].Enqueue? && |tr[i].buffer| >= tr[i].cap
    requires tr[i + 1] == Apply(tr[i], Run(t)) && t !in tr[j].calls
    ensures tr[i + 1].accepted == tr[i].accepted
    ensures forall k :: j <= k < |tr| ==> !tr[k].online
  {
    ClosingCallLasts(tr, i + 1, j, t);
    forall k | j <= k < |tr| ensures !tr[k].online { OnlyForward(tr, j, k); }
  }

  /** An asynchronous send returns with its message last in the queue, never to be dropped from the
      accepted, or with the client offline for good: no message is lost while the client stays. */
  lemma QueuedOrOffline(tr: seq<State>, i: nat, j: nat, t: Tid)
    requires IsRun(tr) && i < j < |tr| && t in tr[i].calls && !tr[i].calls[t].Write?
    requires tr[i + 1] == Apply(tr[i], Run(t)) && t !in tr[i + 1].calls
    ensures tr[j].online ==>
      && tr[i].calls[t].Enqueue? && tr[i + 1].accepted == tr[i].accepted + [tr[i].calls[t].msg]
      && tr[i + 1].accepted <= tr[j].accepted
  {
    OnlyForward(tr, i + 1, j);
  }

  // ---- what calls and the loop achieve -----------------------------------------------------

  /** A run with its steps. */
  ghost predicate IsLabelledRun(tr: seq<State>, steps: seq<Step>) {
    && |tr| == |steps| + 1 && Init(tr[0])
    && forall i: nat :: i < |steps| ==> Does(tr[i], tr[i + 1], steps[i])
  }

  ghost predicate Does(s: State, s': State, st: Step) {
    Enabled(s, st) && s' == Apply(s, st)
  }

  lemma LabelledIsRun(tr: seq<State>, steps: seq<Step>)
    requires IsLabelledRun(tr, steps)
    ensures IsRun(tr)
  {
    forall i: nat | i + 1 < |tr| ensures Linked(tr, i) { assert Does(tr[i], tr[i + 1], steps[i]); }
  }

  /** The call is for this message and this way of sending; only an asynchronous one touches the queue. */
  predicate Carries(c: Call, msg: Msg, async: bool) {
    match c
    case Check(m, a) => m == msg && a == async
    case Enqueue(m) => m == msg && async
    case Write(m) => m == msg && !async
    case CloseIt => async
  }

  /** Throughout a call it carries the message it was begun with; and if the client was offline when it
      began, it never gets past the check. */
  lemma {:induction false} CallCarries(
    tr: seq<State>, steps: seq<Step>, i: nat, j: nat, t: Tid, msg: Msg, async: bool)
    requires IsLabelledRun(tr, steps) && i < j < |tr| && steps[i] == Begin(t, msg, async)
    requires forall k :: i < k <= j ==> t in tr[k].calls
    ensures Carries(tr[j].calls[t], msg, async)
    ensures !tr[i].online ==> tr[j].calls[t].Check?
    decreases j
  {
    assert Does(tr[j - 1], tr[j - 1 + 1], steps[j - 1]);
    if i + 1 < j {
      CallCarries(tr, steps, i, j - 1, t, msg, async);
      LabelledIsRun(tr, steps);
      OnlyForward(tr, i, j - 1);
    }
  }

  /** A call that begins when the client is offline is never accepted: its only step ends it and changes
      nothing else. */
  lemma LateCallIsRefused(tr: seq<State>, steps: seq<Step>, i: nat, j: nat, t: Tid, msg: Msg, async: bool)
    requires IsLabelledRun(tr, steps) && i < j < |tr| && steps[i] == Begin(t, msg, async) && !tr[i].online
    requires forall k :: i < k <= j ==> t in tr[k].calls
    ensures Apply(tr[j], Run(t)) == tr[j].(calls := tr[j].calls - {t})
  {
    CallCarries(tr, steps, i, j, t, msg, async);
    LabelledIsRun(tr, steps);
    OnlyForward(tr, i, j);
  }

  /** An asynchronous send whose turn it is to enqueue: its message enters the queue, behind all others,
      exactly when the channel is open and there is room; then the call has returned and the client is
      online if it was. Otherwise nothing has entered and the call goes on to close the client. */
  lemma EnqueueOutcome(tr: seq<State>, steps: seq<Step>, i: nat, t: Tid)
    requires IsLabelledRun(tr, steps) && i < |steps| && steps[i] == Run(t)
    requires t in tr[i].calls && tr[i].calls[t].Enqueue?
    ensures var s, s', m := tr[i], tr[i + 1], tr[i].calls[t].msg;
      var room := s.closes == 0 && |s.buffer| < s.cap;
      && s'.online == s.online && s'.written == s.written && s'.loop == s.loop
      && (room <==> s'.accepted == s.accepted + [m]) && (room <==> t !in s'.calls)
      && s'.buffer == (if room then s.buffer + [m] else s.buffer)
      && (!room ==> s'.accepted == s.accepted && s'.calls[t].CloseIt?)
  {
    assert Does(tr[i], tr[i + 1], steps[i]);
    assert |tr[i].accepted + [tr[i].calls[t].msg]| != |tr[i].accepted|;
  }

  /** The check of a call: an offline client ends it without effect, and an online one lets it go on to
      the queue or, if it is synchronous, to the socket. */
  lemma CheckOutcome(tr: seq<State>, steps: seq<Step>, i: nat, t: Tid)
    requires IsLabelledRun(tr, steps) && i < |steps| && steps[i] == Run(t)
    requires t in tr[i].calls && tr[i].calls[t].Check?
    ensures tr[i + 1] == tr[i].(calls := tr[i + 1].calls)
    ensures t in tr[i + 1].calls <==> tr[i].online
    ensures tr[i].online ==> if tr[i].calls[t].async then tr[i + 1].calls[t].Enqueue? else tr[i + 1].calls[t].Write?
  {
    assert Does(tr[i], tr[i + 1], steps[i]);
  }

  /** Closing takes the client offline for good. So does the teardown, whose first run also sees to it
      that the channel is closed, and whose last part closes it; a later teardown changes nothing. */
  lemma ClosersWork(tr: seq<State>, steps: seq<Step>, i: nat, j: nat)
    requires IsLabelledRun(tr, steps) && i < j < |tr|
    ensures steps[i].Close? || steps[i].TearDown? ==> !tr[j].online
    ensures steps[i].TearDown? ==> if tr[i].tornDown then tr[i + 1] == tr[i] else tr[i + 1].closing
    ensures steps[i].CloseChan? ==> tr[i].closes == 0 && tr[i + 1].closes == 1 && !tr[i + 1].closing
  {
    LabelledIsRun(tr, steps);
    assert Does(tr[i], tr[i + 1], steps[i]);
    Conservation(tr, i);
    OnlyForward(tr, i + 1, j);
  }

  /** The number of steps of the send loop among the steps from i to j. */
  function LoopSteps(steps: seq<Step>, i: nat, j: nat): nat
    requires i <= j <= |steps|
    decreases j - i
  {
    if i == j then 0 else LoopSteps(steps, i, j - 1) + if steps[j - 1].LoopStep? then 1 else 0
  }

  /** Loop steps left until the first n accepted messages are written. */
  function Work(s: State, n: nat): int {
    2 * (n - |s.written|) - if s.loop.Writing? then 1 else 0
  }

  predicate Looping(s: State) {
    s.loop.Waiting? || (s.loop.Writing? && |s.taken| == 1)
  }

  lemma LoopStepWorks(s: State, s': State, st: Step, n: nat)
    requires Inv(s) && Does(s, s', st) && Looping(s) && |s.written| < n <= |s.accepted|
    requires st.LoopStep? ==> st.ok
    ensures Looping(s') && Work(s', n) <= Work(s, n) - if st.LoopStep? then 1 else 0
  {
    if st.Run? { assert s'.loop == s.loop && s'.taken == s.taken && s'.written == s.written; }
  }

  lemma {:induction false} LoopGoesOn(tr: seq<State>, steps: seq<Step>, i: nat, j: nat, n: nat)
    requires IsLabelledRun(tr, steps) && i <= j < |tr| && Looping(tr[i]) && n <= |tr[i].accepted|
    requires forall k :: i <= k < j && steps[k].LoopStep? ==> steps[k].ok
    ensures |tr[j].written| < n ==> Looping(tr[j]) && Work(tr[j], n) <= Work(tr[i], n) - LoopSteps(steps, i, j)
    decreases j
  {
    if i < j {
      LabelledIsRun(tr, steps);
      LoopGoesOn(tr, steps, i, j - 1, n);
      assert Does(tr[j - 1], tr[j - 1 + 1], steps[j - 1]);
      Conservation(tr, j - 1);
      OnlyForward(tr, i, j - 1);
      OnlyForward(tr, j - 1, j);
      if |tr[j].written| < n { LoopStepWorks(tr[j - 1], tr[j], steps[j - 1], n); }
    }
  }

  /** While its writes succeed, the send loop writes everything that has been accepted: two steps a
      message, whatever else runs in between, and even if the client goes offline or its channel is
      closed meanwhile. */
  lemma LoopDrains(tr: seq<State>, steps: seq<Step>, i: nat, j: nat)
    requires IsLabelledRun(tr, steps) && i <= j < |tr| && Looping(tr[i])
    requires forall k :: i <= k < j && steps[k].LoopStep? ==> steps[k].ok
    requires LoopSteps(steps, i, j) >= 2 * (|tr[i].accepted| - |tr[i].written|)
    ensures tr[i].accepted <= tr[j].written
  {
    var n := |tr[i].accepted|;
    LabelledIsRun(tr, steps);
    LoopGoesOn(tr, steps, i, j, n);
    Conservation(tr, j);
    OnlyForward(tr, i, j);
    assert |tr[j].written| >= n;
    assert tr[j].written == tr[j].accepted[..|tr[j].written|];
  }

  /** Nothing keeps the loop from its next step while there is something to write, and nothing ever keeps
      a call from its own. */
  lemma NobodyIsStuck(tr: seq<State>, i: nat, t: Tid, ok: bool)
    requires IsRun(tr) && i < |tr|
    ensures Looping(tr[i]) && |tr[i].written| < |tr[i].accepted| ==> Enabled(tr[i], LoopStep(ok))
    ensures t in tr[i].calls ==> Enabled(tr[i], Run(t))
  {
    Conservation(tr, i);
  }

  /** The loop ends, and takes the client offline, when its channel is closed and drained or a write has
      failed; a message whose write failed is not counted as written. */
  lemma LoopEnds(tr: seq<State>, steps: seq<Step>, i: nat)
    requires IsLabelledRun(tr, steps) && i + 1 < |steps| && steps[i].LoopStep? && steps[i + 1].LoopStep?
    requires (tr[i].loop.Waiting? && tr[i].buffer == []) || (tr[i].loop.Writing? && !steps[i].ok)
    ensures tr[i + 2].loop.Exited? && !tr[i + 2].online
    ensures tr[i + 2].written == tr[i].written && tr[i + 2].buffer == tr[i].buffer && tr[i + 2].taken == tr[i].taken
  {
    assert Does(tr[i], tr[i + 1], steps[i]) && Does(tr[i + 1], tr[i + 1 + 1], steps[i + 1]);
  }
}
