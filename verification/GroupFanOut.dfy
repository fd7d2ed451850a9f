/** One fan-out offers its message to every member but the excluded one, once. */
module GroupFanOut {
  import opened Types
  import opened GroupProtocol
  import opened GroupInvariant
  import opened GroupHistory

  /** The members a message has been offered to so far. */
  function Reached(log: seq<Delivery>, g: nat, at: nat): set<Uid> {
    set i | 0 <= i < |log| && log[i].g == g && log[i].at == at :: log[i].uid
  }

  predicate FanOk(s: State, g: nat)
    requires g < |s.groups|
  {
    match s.groups[g].listener
    case Fan(e, todo) => Reached(s.log, g, e.at) + todo == s.groups[g].users - {e.msg.exceptUid}
    case _ => true
  }

  predicate FansOk(s: State) {
    forall g: nat :: g < |s.groups| ==> FanOk(s, g)
  }

  /** While a listener fans out nobody joins or leaves. */
  predicate UsersKept(s: State, s': State) {
    && |s.groups| <= |s'.groups|
    && forall g: nat :: g < |s.groups| && s.groups[g].listener.Fan? ==> s'.groups[g].users == s.groups[g].users
  }

  lemma FansFrame(s: State, s': State)
    requires FansOk(s) && UsersKept(s, s') && s'.log == s.log
    requires forall g: nat :: g < |s'.groups| && s'.groups[g].listener.Fan? ==>
      g < |s.groups| && s'.groups[g].listener == s.groups[g].listener
    ensures FansOk(s')
  {
    forall g: nat | g < |s'.groups| ensures FanOk(s', g) {
      if s'.groups[g].listener.Fan? { assert FanOk(s, g); }
    }
  }

  lemma JoinKeepsFans(s: State, t: Tid)
    requires Inv(s) && FansOk(s) && t in s.threads && s.threads[t].Join? && JoinReady(s, s.threads[t])
    ensures FansOk(JoinStep(s, t, s.threads[t]))
  {
    if s.threads[t].jpc.JEnter? { assert GroupOk(s, s.threads[t].jpc.g); }
    FansFrame(s, JoinStep(s, t, s.threads[t]));
  }

  lemma LeaveKeepsUsers(s: State, t: Tid)
    requires Inv(s) && t in s.threads && s.threads[t].Leave? && LeaveReady(s, s.threads[t])
    ensures UsersKept(s, LeaveStep(s, t, s.threads[t]))
  {
    if s.threads[t].lpc.LKnock? { assert GroupOk(s, s.threads[t].lpc.g); }
  }

  lemma MoveKeepsFans(s: State, s': State, t: Tid)
    requires FansOk(s) && UsersKept(s, s') && s'.log == s.log && LeaveMoves(s, s', t)
    ensures FansOk(s')
  {
    FansFrame(s, s');
  }

  lemma LeaveKeepsFans(s: State, t: Tid)
    requires Inv(s) && FansOk(s) && t in s.threads && s.threads[t].Leave? && LeaveReady(s, s.threads[t])
    ensures FansOk(LeaveStep(s, t, s.threads[t]))
  {
    LeaveKeepsUsers(s, t);
    if s.threads[t].lpc.LNote? {
      FansFrame(s, LeaveStep(s, t, s.threads[t]));
    } else {
      LeaveMovesOn(s, t, s.threads[t]);
      MoveKeepsFans(s, LeaveStep(s, t, s.threads[t]), t);
    }
  }

  lemma PostKeepsFans(s: State, t: Tid, th: Thread)
    requires FansOk(s) && th.Post? && PostReady(s, th)
    ensures FansOk(PostStep(s, t, th))
  {
    FansFrame(s, PostStep(s, t, th));
  }

  lemma RunKeepsFans(s: State, t: Tid)
    requires Inv(s) && FansOk(s) && t in s.threads && RunReady(s, s.threads[t])
    ensures FansOk(RunStep(s, t, s.threads[t]))
  {
    match s.threads[t]
    case Join(_, _, _, _, _) => JoinKeepsFans(s, t);
    case Leave(_, _, _, _) => LeaveKeepsFans(s, t);
    case Post(_, _, _) => PostKeepsFans(s, t, s.threads[t]);
    case _ => FansFrame(s, RunStep(s, t, s.threads[t]));
  }

  lemma ListenKeepsFans(s: State, g: nat)
    requires Inv(s) && OrderOk(s) && FansOk(s) && g < |s.groups| && ListenReady(s, g)
    ensures FansOk(ListenStep(s, g))
  {
    var s' := ListenStep(s, g);
    forall h: nat | h < |s'.groups| ensures FanOk(s', h) {
      assert FanOk(s, h);
      if h == g && s'.groups[g].listener.Fan? {
        var at := s'.groups[g].listener.e.at;
        forall i | 0 <= i < |s.log| && s.log[i].g == g ensures s.log[i].at != at { assert DeliveryOk(s, s.log[i]); }
        assert Reached(s.log, g, at) == {};
      }
    }
  }

  lemma DeliverKeepsFans(s: State, g: nat, uid: Uid, accepted: bool)
    requires FansOk(s) && g < |s.groups| && DeliverReady(s, g, uid)
    ensures FansOk(DeliverStep(s, g, uid, accepted))
  {
    var s' := DeliverStep(s, g, uid, accepted);
    forall h: nat | h < |s'.groups| ensures FanOk(s', h) {
      assert FanOk(s, h);
      if s'.groups[h].listener.Fan? {
        var at := s'.groups[h].listener.e.at;
        var d := s'.log[|s.log|];
        assert Reached(s'.log, h, at) == Reached(s.log, h, at) + if d.g == h && d.at == at then {d.uid} else {} by {
          forall u | u in Reached(s'.log, h, at)
            ensures u in Reached(s.log, h, at) + if d.g == h && d.at == at then {d.uid} else {} {
            var i :| 0 <= i < |s'.log| && s'.log[i].g == h && s'.log[i].at == at && s'.log[i].uid == u;
            if i < |s.log| { assert s.log[i] == s'.log[i]; }
          }
          forall u | u in Reached(s.log, h, at) ensures u in Reached(s'.log, h, at) {
            var i :| 0 <= i < |s.log| && s.log[i].g == h && s.log[i].at == at && s.log[i].uid == u;
            assert s.log[i] == s'.log[i];
          }
        }
      }
    }
  }

  lemma StepKeepsFans(s: State, st: Step)
    requires Inv(s) && OrderOk(s) && FansOk(s) && Enabled(s, st)
    ensures FansOk(Apply(s, st))
  {
    match st
    case Run(t) => RunKeepsFans(s, t);
    case Listen(g) => ListenKeepsFans(s, g);
    case Deliver(g, uid, accepted) => DeliverKeepsFans(s, g, uid, accepted);
    case _ => FansFrame(s, Apply(s, st));
  }
}
