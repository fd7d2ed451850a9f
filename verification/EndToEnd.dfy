/** The group protocol together with the send queue of one client object of user u: from the channels
    of the groups to the socket. The listener of a group hands a message to the client by a
    SafeSendMsg call, whose steps interleave with everything else; the delivery counts as accepted
    when that call enters the message into the queue. */
module EndToEnd {
  import opened Types
  import G = GroupProtocol
  import Q = ClientQueue
  import GroupHistory
  import GroupTheorems

  /** `sending`: for a group whose listener is in a SafeSendMsg call on the client, that call. */
  datatype State = State(groups: G.State, queue: Q.State, sending: map<nat, Q.Tid>)

  datatype Step =
    | Group(gst: G.Step)            // the groups, and deliveries to any other client object
    | Queue(qst: Q.Step)            // the client's send loop, closers, teardown and other senders
    | Offer(g: nat, t: Q.Tid)       // the listener of group g calls SafeSendMsg
    | Send(g: nat)                  // the next step of that call

  ghost predicate Init(s: State) {
    G.Init(s.groups) && Q.Init(s.queue) && s.sending == map[]
  }

  predicate Enabled(s: State, u: Uid, st: Step) {
    match st
    case Group(gst) => G.Enabled(s.groups, gst) && (gst.Deliver? ==> gst.g !in s.sending)
    case Queue(qst) =>
      && Q.Enabled(s.queue, qst)
      && (qst.Begin? ==> qst.msg.origin.None?) && (qst.Run? ==> qst.t !in s.sending.Values)
    case Offer(g, t) =>
      g < |s.groups.groups| && G.DeliverReady(s.groups, g, u) && g !in s.sending && t !in s.queue.calls
    case Send(g) =>
      && g in s.sending && s.sending[g] in s.queue.calls
      && g < |s.groups.groups| && G.DeliverReady(s.groups, g, u)
  }

  /** What the listener of group g has in hand, as the client's queue will hold it. */
  function InHand(s: G.State, g: nat): Q.Msg
    requires g < |s.groups| && s.groups[g].listener.Fan?
  {
    var e := s.groups[g].listener.e;
    Q.Msg(e.msg.msg, Some(Q.Origin(s.groups[g].gid, e.at)))
  }

  predicate Took(q: Q.State, q': Q.State) {
    |q'.accepted| > |q.accepted|
  }

  function Apply(s: State, u: Uid, st: Step): State
    requires Enabled(s, u, st)
  {
    match st
    case Group(gst) => s.(groups := G.Apply(s.groups, gst))
    case Queue(qst) => s.(queue := Q.Apply(s.queue, qst))
    case Offer(g, t) =>
      s.(queue := Q.Apply(s.queue, Q.Begin(t, InHand(s.groups, g), true)), sending := s.sending[g := t])
    case Send(g) =>
      var q' := Q.Apply(s.queue, Q.Run(s.sending[g]));
      if Took(s.queue, q') || s.sending[g] !in q'.calls then
        State(G.DeliverStep(s.groups, g, u, Took(s.queue, q')), q', s.sending - {g})
      else s.(queue := q')
  }

  ghost predicate Next(s: State, s': State, u: Uid) {
    exists st: Step :: Enabled(s, u, st) && s' == Apply(s, u, st)
  }

  ghost predicate IsRun(tr: seq<State>, u: Uid) {
    |tr| > 0 && Init(tr[0]) && forall i: nat :: i + 1 < |tr| ==> Next(tr[i], tr[i + 1], u)
  }

  // ---- invariant ---------------------------------------------------------------------------

  predicate CarriesOnly(call: Q.Call, m: Q.Msg) {
    match call
    case Check(msg, async) => msg == m && async
    case Enqueue(msg) => msg == m
    case Write(_) => false
    case CloseIt => true
  }

  predicate CarriesNoGroup(call: Q.Call) {
    !call.CloseIt? ==> call.msg.origin.None?
  }

  /** A SafeSendMsg call of a listener carries what the listener still has in hand for u. */
  predicate SendOk(gs: G.State, q: Q.State, u: Uid, g: nat, t: Q.Tid) {
    && g < |gs.groups| && G.DeliverReady(gs, g, u)
    && t in q.calls && CarriesOnly(q.calls[t], InHand(gs, g))
  }

  predicate Apart(sending: map<nat, Q.Tid>) {
    forall g, h :: g in sending && h in sending && sending[g] == sending[h] ==> g == h
  }

  ghost predicate CallsOk(gs: G.State, q: Q.State, sending: map<nat, Q.Tid>, u: Uid) {
    && (forall g :: g in sending ==> SendOk(gs, q, u, g, sending[g])) && Apart(sending)
    && (forall t :: t in q.calls && t !in sending.Values ==> CarriesNoGroup(q.calls[t]))
  }

  /** Delivery d is of message m to user u, and was accepted. */
  predicate IsDelivery(d: G.Delivery, m: Q.Msg, u: Uid) {
    && m.origin.Some? && d.uid == u && d.gid == m.origin.value.gid && d.at == m.origin.value.at
    && d.msg.msg == m.bytes && d.accepted
  }

  predicate Logged(log: seq<G.Delivery>, m: Q.Msg, u: Uid) {
    exists i :: 0 <= i < |log| && IsDelivery(log[i], m, u)
  }

  /** Group messages in the accepted were delivered, and those of one gid are in channel order. */
  predicate InOrder(ms: seq<Q.Msg>) {
    forall i, j :: 0 <= i < j < |ms| ==> Before(ms[i], ms[j])
  }

  predicate Before(a: Q.Msg, b: Q.Msg) {
    a.origin.Some? && b.origin.Some? && a.origin.value.gid == b.origin.value.gid ==>
      a.origin.value.at < b.origin.value.at
  }

  predicate HistoryOk(log: seq<G.Delivery>, ms: seq<Q.Msg>, u: Uid) {
    InOrder(ms) && forall i :: 0 <= i < |ms| && ms[i].origin.Some? ==> Logged(log, ms[i], u)
  }

  ghost predicate Inv(s: State, u: Uid) {
    && GroupTheorems.Good(s.groups) && Q.Inv(s.queue)
    && CallsOk(s.groups, s.queue, s.sending, u)
    && HistoryOk(s.groups.log, s.queue.accepted, u)
  }

  // ---- steps of the groups -----------------------------------------------------------------

  /** A listener in the middle of a fan-out, and the log so far, are as they were. */
  predicate Kept(s: G.State, s': G.State, g: nat) {
    && g < |s.groups| <= |s'.groups| && s.log <= s'.log
    && s'.groups[g].gid == s.groups[g].gid && s'.groups[g].listener == s.groups[g].listener
  }

  lemma RunKeepsListener(s: G.State, t: G.Tid, g: nat)
    requires t in s.threads && G.RunReady(s, s.threads[t]) && g < |s.groups|
    ensures Kept(s, G.RunStep(s, t, s.threads[t]), g)
  {
    var th := s.threads[t];
    if th.Leave? { GroupHistory.LeaveMovesOn(s, t, th); }
  }

  lemma StepKeepsListener(s: G.State, st: G.Step, g: nat)
    requires G.Enabled(s, st) && g < |s.groups| && s.groups[g].listener.Fan? && s.groups[g].listener.todo != {}
    requires st.Deliver? ==> st.g != g
    ensures Kept(s, G.Apply(s, st), g)
  {
    match st
    case Run(t) => RunKeepsListener(s, t, g);
    case Listen(h) => GroupHistory.ListenMovesOn(s, h);
    case _ =>
  }

  lemma StepExtendsLog(s: G.State, st: G.Step)
    requires G.Enabled(s, st)
    ensures s.log <= G.Apply(s, st).log
  {
    match st
    case Run(t) =>
      var th := s.threads[t];
      if th.Leave? { GroupHistory.LeaveMovesOn(s, t, th); }
    case Listen(h) => GroupHistory.ListenMovesOn(s, h);
    case _ =>
  }

  lemma LongerLog(log: seq<G.Delivery>, log': seq<G.Delivery>, ms: seq<Q.Msg>, u: Uid)
    requires HistoryOk(log, ms, u) && log <= log'
    ensures HistoryOk(log', ms, u)
  {
    forall i | 0 <= i < |ms| && ms[i].origin.Some? ensures Logged(log', ms[i], u) {
      assert Logged(log, ms[i], u);
      var k :| 0 <= k < |log| && IsDelivery(log[k], ms[i], u);
      assert log'[k] == log[k];
    }
  }

  lemma GroupKeepsInv(s: State, u: Uid, gst: G.Step)
    requires Inv(s, u) && Enabled(s, u, Group(gst))
    ensures Inv(Apply(s, u, Group(gst)), u)
  {
    var gs' := G.Apply(s.groups, gst);
    GroupTheorems.StepKeepsGood(s.groups, gst);
    StepExtendsLog(s.groups, gst);
    LongerLog(s.groups.log, gs'.log, s.queue.accepted, u);
    forall g | g in s.sending ensures SendOk(gs', s.queue, u, g, s.sending[g]) {
      assert SendOk(s.groups, s.queue, u, g, s.sending[g]);
      StepKeepsListener(s.groups, gst, g);
    }
  }

  // ---- steps of the queue ------------------------------------------------------------------

  /** No step but its own touches a call. */
  lemma OtherCalls(q: Q.State, st: Q.Step, t: Q.Tid)
    requires Q.Enabled(q, st) && t in q.calls && st != Q.Run(t)
    ensures t in Q.Apply(q, st).calls && Q.Apply(q, st).calls[t] == q.calls[t]
  {
  }

  /** A call that runs stays what it is, and enters its own message only. */
  lemma RunCarries(q: Q.State, t: Q.Tid)
    requires t in q.calls
    ensures var q' := Q.Apply(q, Q.Run(t));
      && (t in q'.calls && !q'.calls[t].CloseIt? ==> !q.calls[t].CloseIt? && q'.calls[t].msg == q.calls[t].msg)
      && (t in q'.calls && q'.calls[t].Write? ==> q.calls[t].Check? && !q.calls[t].async)
      && (t in q'.calls && q'.calls[t].Check? ==> q'.calls[t] == q.calls[t])
      && (q'.accepted == q.accepted || (q.calls[t].Enqueue? && q'.accepted == q.accepted + [q.calls[t].msg]))
      && (Took(q, q') ==> t !in q'.calls)
  {
  }

  lemma QueueKeepsCalls(s: State, u: Uid, qst: Q.Step)
    requires CallsOk(s.groups, s.queue, s.sending, u) && Enabled(s, u, Queue(qst))
    ensures CallsOk(s.groups, Q.Apply(s.queue, qst), s.sending, u)
  {
    var q' := Q.Apply(s.queue, qst);
    forall g | g in s.sending ensures SendOk(s.groups, q', u, g, s.sending[g]) {
      assert SendOk(s.groups, s.queue, u, g, s.sending[g]);
      OtherCalls(s.queue, qst, s.sending[g]);
    }
    forall t | t in q'.calls && t !in s.sending.Values ensures CarriesNoGroup(q'.calls[t]) {
      if qst == Q.Run(t) { RunCarries(s.queue, t); } else if t in s.queue.calls { OtherCalls(s.queue, qst, t); }
    }
  }

  lemma QueueKeepsHistory(s: State, u: Uid, qst: Q.Step)
    requires CallsOk(s.groups, s.queue, s.sending, u) && Enabled(s, u, Queue(qst))
    requires HistoryOk(s.groups.log, s.queue.accepted, u)
    ensures HistoryOk(s.groups.log, Q.Apply(s.queue, qst).accepted, u)
  {
    if qst.Run? {
      RunCarries(s.queue, qst.t);
      assert CarriesNoGroup(s.queue.calls[qst.t]);
    }
  }

  lemma QueueKeepsInv(s: State, u: Uid, qst: Q.Step)
    requires Inv(s, u) && Enabled(s, u, Queue(qst))
    ensures Inv(Apply(s, u, Queue(qst)), u)
  {
    Q.StepKeepsInv(s.queue, qst);
    QueueKeepsCalls(s, u, qst);
    QueueKeepsHistory(s, u, qst);
  }

  // ---- steps of both -----------------------------------------------------------------------

  lemma OfferKeepsInv(s: State, u: Uid, g: nat, t: Q.Tid)
    requires Inv(s, u) && Enabled(s, u, Offer(g, t))
    ensures Inv(Apply(s, u, Offer(g, t)), u)
  {
    var s', begin := Apply(s, u, Offer(g, t)), Q.Begin(t, InHand(s.groups, g), true);
    Q.StepKeepsInv(s.queue, begin);
    forall h | h in s'.sending ensures SendOk(s'.groups, s'.queue, u, h, s'.sending[h]) {
      if h != g {
        assert SendOk(s.groups, s.queue, u, h, s.sending[h]);
        OtherCalls(s.queue, begin, s.sending[h]);
      }
    }
    assert s'.sending[g] == t;
    forall x | x in s.sending.Values ensures x in s'.sending.Values {
      var h :| h in s.sending && s.sending[h] == x;
      assert s'.sending[h] == x;
    }
  }

  /** The next delivery to u of a gid is of a later message than all before it. */
  lemma NewestIsLater(log: seq<G.Delivery>, d: G.Delivery, ms: seq<Q.Msg>, m: Q.Msg, u: Uid)
    requires HistoryOk(log, ms, u) && IsDelivery(d, m, u)
    requires forall i :: 0 <= i < |log| ==> GroupHistory.Ordered(log[i], d)
    ensures HistoryOk(log + [d], ms + [m], u)
  {
    var ms', log' := ms + [m], log + [d];
    forall i, j | 0 <= i < j < |ms'| ensures Before(ms'[i], ms'[j]) {
      if j < |ms| {
        assert Before(ms[i], ms[j]);
      } else if ms[i].origin.Some? {
        assert Logged(log, ms[i], u);
        var k :| 0 <= k < |log| && IsDelivery(log[k], ms[i], u);
        assert GroupHistory.Ordered(log[k], d);
      }
    }
    LongerLog(log, log', ms, u);
    assert IsDelivery(log'[|log|], m, u);
    forall i | 0 <= i < |ms'| && ms'[i].origin.Some? ensures Logged(log', ms'[i], u) {
      if i < |ms| { assert Logged(log', ms[i], u); }
    }
  }

  lemma SendKeepsHistory(s: State, u: Uid, g: nat)
    requires Inv(s, u) && Enabled(s, u, Send(g))
    requires GroupTheorems.Good(Apply(s, u, Send(g)).groups)
    ensures HistoryOk(Apply(s, u, Send(g)).groups.log, Apply(s, u, Send(g)).queue.accepted, u)
  {
    var s', t := Apply(s, u, Send(g)), s.sending[g];
    var q' := s'.queue;
    RunCarries(s.queue, t);
    assert SendOk(s.groups, s.queue, u, g, t);
    if Took(s.queue, q') {
      var log, d := s.groups.log, s'.groups.log[|s.groups.log|];
      assert s'.groups.log == log + [d];
      forall i | 0 <= i < |log| ensures GroupHistory.Ordered(log[i], d) {
        assert GroupHistory.Ordered(s'.groups.log[i], s'.groups.log[|log|]);
      }
      NewestIsLater(log, d, s.queue.accepted, InHand(s.groups, g), u);
    } else {
      LongerLog(s.groups.log, s'.groups.log, s.queue.accepted, u);
    }
  }

  lemma DeliverKeepsOthers(s: G.State, g: nat, u: Uid, accepted: bool, h: nat)
    requires g < |s.groups| && G.DeliverReady(s, g, u) && h < |s.groups| && h != g
    ensures Kept(s, G.DeliverStep(s, g, u, accepted), h)
  {
  }

  lemma SendKeepsCalls(s: State, u: Uid, g: nat)
    requires CallsOk(s.groups, s.queue, s.sending, u) && Enabled(s, u, Send(g))
    ensures var s' := Apply(s, u, Send(g)); CallsOk(s'.groups, s'.queue, s'.sending, u)
  {
    var s', t := Apply(s, u, Send(g)), s.sending[g];
    RunCarries(s.queue, t);
    assert SendOk(s.groups, s.queue, u, g, t);
    forall h | h in s'.sending ensures SendOk(s'.groups, s'.queue, u, h, s'.sending[h]) {
      assert SendOk(s.groups, s.queue, u, h, s.sending[h]);
      if h != g {
        OtherCalls(s.queue, Q.Run(t), s.sending[h]);
        DeliverKeepsOthers(s.groups, g, u, Took(s.queue, s'.queue), h);
      }
    }
    if t in s'.queue.calls { assert s'.sending[g] == t; }
    forall x | x in s.sending.Values && x != t ensures x in s'.sending.Values {
      var h :| h in s.sending && s.sending[h] == x;
      assert s'.sending[h] == x;
    }
    forall x | x in s'.queue.calls && x != t ensures x in s.queue.calls && s'.queue.calls[x] == s.queue.calls[x] {}
  }

  lemma SendKeepsInv(s: State, u: Uid, g: nat)
    requires Inv(s, u) && Enabled(s, u, Send(g))
    ensures Inv(Apply(s, u, Send(g)), u)
  {
    var q' := Q.Apply(s.queue, Q.Run(s.sending[g]));
    Q.StepKeepsInv(s.queue, Q.Run(s.sending[g]));
    GroupTheorems.StepKeepsGood(s.groups, G.Deliver(g, u, Took(s.queue, q')));
    SendKeepsCalls(s, u, g);
    SendKeepsHistory(s, u, g);
  }

  lemma StepKeepsInv(s: State, u: Uid, st: Step)
    requires Inv(s, u) && Enabled(s, u, st)
    ensures Inv(Apply(s, u, st), u)
  {
    match st
    case Group(gst) => GroupKeepsInv(s, u, gst);
    case Queue(qst) => QueueKeepsInv(s, u, qst);
    case Offer(g, t) => OfferKeepsInv(s, u, g, t);
    case Send(g) => SendKeepsInv(s, u, g);
  }

  lemma {:induction false} RunKeepsInv(tr: seq<State>, u: Uid, n: nat)
    requires IsRun(tr, u) && n < |tr|
    ensures Inv(tr[n], u)
  {
    if n > 0 {
      RunKeepsInv(tr, u, n - 1);
      assert Next(tr[n - 1], tr[n - 1 + 1], u);
      var st :| Enabled(tr[n - 1], u, st) && tr[n] == Apply(tr[n - 1], u, st);
      StepKeepsInv(tr[n - 1], u, st);
    }
  }

  /** From channel to socket: what the client's send loop has written for one gid is in the order in
      which the messages entered the gid's channels, across all the group objects the gid had, none
      twice; and all of it was delivered to u by a listener, with that payload. */
  lemma WrittenInOrder(tr: seq<State>, u: Uid, n: nat)
    requires IsRun(tr, u) && n < |tr|
    ensures InOrder(tr[n].queue.written)
    ensures forall i :: 0 <= i < |tr[n].queue.written| && tr[n].queue.written[i].origin.Some? ==>
      Logged(tr[n].groups.log, tr[n].queue.written[i], u)
  {
    RunKeepsInv(tr, u, n);
    var q := tr[n].queue;
    forall i | 0 <= i < |q.written| ensures q.written[i] == q.accepted[i] {}
    forall i, j | 0 <= i < j < |q.written| ensures Before(q.written[i], q.written[j]) {
      assert Before(q.accepted[i], q.accepted[j]);
    }
  }

  /** The listener's call can always go on: sending to the client never gets stuck half way. */
  lemma SendCanGoOn(tr: seq<State>, u: Uid, n: nat, g: nat)
    requires IsRun(tr, u) && n < |tr| && g in tr[n].sending
    ensures Enabled(tr[n], u, Send(g))
  {
    RunKeepsInv(tr, u, n);
    assert SendOk(tr[n].groups, tr[n].queue, u, g, tr[n].sending[g]);
  }

  /** A listener's call on the client ends with one more delivery to u on record, of what the listener
      had in hand; accepted exactly when that message has entered the client's queue, last. */
  lemma CallIsOnRecord(tr: seq<State>, u: Uid, n: nat, g: nat)
    requires IsRun(tr, u) && n + 1 < |tr| && g in tr[n].sending && g !in tr[n + 1].sending
    ensures var s, s' := tr[n], tr[n + 1];
      && g < |s.groups.groups| && s.groups.groups[g].listener.Fan? && |s'.groups.log| == |s.groups.log| + 1
      && var d := s'.groups.log[|s.groups.log|];
         && d.g == g && d.uid == u
         && d.at == s.groups.groups[g].listener.e.at && d.msg == s.groups.groups[g].listener.e.msg
         && (d.accepted <==> s'.queue.accepted == s.queue.accepted + [InHand(s.groups, g)])
         && (!d.accepted ==> s'.queue.accepted == s.queue.accepted)
  {
    RunKeepsInv(tr, u, n);
    assert Next(tr[n], tr[n + 1], u);
    var st :| Enabled(tr[n], u, st) && tr[n + 1] == Apply(tr[n], u, st);
    assert st == Send(g);
    assert SendOk(tr[n].groups, tr[n].queue, u, g, tr[n].sending[g]);
    RunCarries(tr[n].queue, tr[n].sending[g]);
    assert |tr[n].queue.accepted + [InHand(tr[n].groups, g)]| != |tr[n].queue.accepted|;
  }
}
