/** Whole calls of the group protocol, from the step that begins them to the one after which they have
    returned. */
module GroupCalls {
  import opened Types
  import opened GroupProtocol
  import opened GroupInvariant
  import opened GroupHistory
  import opened GroupMembership
  import opened GroupTheorems
  import opened GroupOutcomes

  /** A run with its steps. */
  ghost predicate IsLabelledRun(tr: seq<State>, steps: seq<Step>) {
    && |tr| == |steps| + 1 && Init(tr[0])
    && forall i: nat :: i < |steps| ==> Does(tr[i], tr[i + 1], steps[i])
  }

  ghost predicate Does(s: State, s': State, st: Step) {
    Enabled(s, st) && s' == Apply(s, st)
  }

  lemma LabelledIsRun(tr: seq<State>, steps: seq<Step>)
    requires IsLabelledRun(tr, steps)
    ensures IsRun(tr)
  {
    forall i: nat | i + 1 < |tr| ensures Linked(tr, i) { assert Does(tr[i], tr[i + 1], steps[i]); }
  }

  /** What a call was asked to do. */
  datatype Asked =
    | ToJoin(uid: Uid, gid: Gid)
    | ToLeave(uid: Uid, gid: Gid)
    | ToLeaveAll(uid: Uid)
    | ToPost(gid: Gid, msg: GroupMsg)

  /** The step that begins such a call. */
  function Begins(t: Tid, a: Asked): Step {
    match a
    case ToJoin(uid, gid) => StartJoin(t, uid, gid)
    case ToLeave(uid, gid) => StartLeave(t, uid, gid)
    case ToLeaveAll(uid) => StartOutAll(t, uid)
    case ToPost(gid, msg) => StartPost(t, gid, msg)
  }

  predicate IsCall(th: Thread, a: Asked) {
    match a
    case ToJoin(uid, gid) => th.Join? && th.uid == uid && th.gid == gid
    case ToLeave(uid, gid) => th.Leave? && !th.all && th.uid == uid && th.gid == gid
    case ToLeaveAll(uid) => (th.OutAll? || th.OutLoop? || (th.Leave? && th.all)) && th.uid == uid
    case ToPost(gid, msg) => th.Post? && th.pgid == gid && th.msg == msg
  }

  lemma OwnStepStays(s: State, t: Tid, a: Asked)
    requires t in s.threads && IsCall(s.threads[t], a) && RunReady(s, s.threads[t])
    ensures var s' := RunStep(s, t, s.threads[t]); t in s'.threads ==> IsCall(s'.threads[t], a)
  {
    var th := s.threads[t];
    if th.Leave? && !th.lpc.LNote? { LeaveMovesOn(s, t, th); }
  }

  lemma StepStays(s: State, st: Step, t: Tid, a: Asked)
    requires Enabled(s, st) && t in s.threads && IsCall(s.threads[t], a)
    ensures t in Apply(s, st).threads ==> IsCall(Apply(s, st).threads[t], a)
  {
    if st == Run(t) {
      OwnStepStays(s, t, a);
    } else if !(st.RunOut? && st.t == t) {
      OtherThreads(s, st, t);
    }
  }

  /** A call is throughout what it was asked to be. */
  lemma {:induction false} CallStays(tr: seq<State>, steps: seq<Step>, i: nat, j: nat, t: Tid, a: Asked)
    requires IsLabelledRun(tr, steps) && i < j < |tr| && steps[i] == Begins(t, a)
    requires forall k :: i < k <= j ==> t in tr[k].threads
    ensures IsCall(tr[j].threads[t], a)
    decreases j
  {
    assert Does(tr[j - 1], tr[j - 1 + 1], steps[j - 1]);
    if i + 1 < j {
      CallStays(tr, steps, i, j - 1, t, a);
      StepStays(tr[j - 1], steps[j - 1], t, a);
    }
  }

  /** The call begins at step i and has returned after step j, and is under way in between. */
  ghost predicate WholeCall(tr: seq<State>, steps: seq<Step>, i: nat, j: nat, t: Tid, a: Asked) {
    && IsLabelledRun(tr, steps) && i < j < |steps| && steps[i] == Begins(t, a)
    && (forall k :: i < k <= j ==> t in tr[k].threads) && t !in tr[j + 1].threads
  }

  /** With calls on each client serialised: after a join of uid to gid has returned, uid is in gid; after
      a leave has returned it is not; after a leave-all has returned it is in no group. */
  lemma ClientCallsWork(tr: seq<State>, steps: seq<Step>, i: nat, j: nat, t: Tid, a: Asked)
    requires WholeCall(tr, steps, i, j, t, a) && !a.ToPost? && forall k :: 0 <= k < |tr| ==> Serial(tr[k])
    ensures var s' := tr[j + 1];
      match a
      case ToJoin(uid, gid) => InGroup(s', uid, gid)
      case ToLeave(uid, gid) => OutOfGroup(s', uid, gid)
      case ToLeaveAll(uid) => forall k :: OutOfGroup(s', uid, k)
  {
    LabelledIsRun(tr, steps);
    CallStays(tr, steps, i, j, t, a);
    CallsDoTheirWork(tr, j, t);
    assert Linked(tr, j);
    var st := OwnStepOf(tr[j], tr[j + 1], t);
    NotedWhenDone(tr[j], t);
  }

  /** After a post of m to gid has returned: m is the last in the hands of a group of that gid, once more
      than before the last step; or that step found gid unmapped, or the group found dead or closed,
      and changed no group. */
  lemma PostWorks(tr: seq<State>, steps: seq<Step>, i: nat, j: nat, t: Tid, gid: Gid, m: GroupMsg)
    requires WholeCall(tr, steps, i, j, t, ToPost(gid, m))
    ensures var s, s' := tr[j], tr[j + 1];
      || (s'.groups == s.groups && gid !in s.mapped)
      || (s'.groups == s.groups && exists g: nat :: Refers(s, g, gid) && (!s.groups[g].alive || s.groups[g].closes > 0))
      || (exists g: nat :: Refers(s, g, gid) && s.groups[g].closes == 0 && QueuedLast(s, s', g, m))
  {
    LabelledIsRun(tr, steps);
    CallStays(tr, steps, i, j, t, ToPost(gid, m));
    PostEnds(tr, j, t);
    var th := tr[j].threads[t];
    if !th.ppc.PLook? { assert Refers(tr[j], th.ppc.g, gid); }
  }
}
