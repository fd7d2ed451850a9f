/** Unique login: nodes race for one key of a shared directory (an atomic swap, and delete), register
    a client object when they win, and stop the older connection when they lose.

    The state is that of one uid; logins and closes run as threads whose directory and registry
    actions are separate steps. `wins`, `removals` and `lost` only record what happened. */
module Login {
  import opened Types

  type Tid = nat
  type NodeNo = nat

  /** The directory entry: the node and the random id of the login. */
  datatype Entry = Entry(node: NodeNo, uuid: nat)

  /** A client object. `gone`: its socket's close event has been handled. `torn`: OnClose has begun. */
  datatype Conn = Conn(node: NodeNo, uuid: nat, online: bool, torn: bool, gone: bool)

  datatype LoginPc =
    | Look(n: NodeNo)                        // is the user on this node already?
    | Swap(n: NodeNo)                        // GETSET
    | Drop(n: NodeNo, prev: Option<Entry>)    // lost, or GETSET failed: DEL
    | StopOld(victim: Entry)
    | Register(n: NodeNo, uuid: nat)

  datatype ClosePc = Unregister | Erase      // DelClient, then DEL

  datatype State = State(
    dir: Option<Entry>,
    conns: seq<Conn>,                        // every client object ever created for the uid
    reg: map<NodeNo, nat>,                   // per node: the registered client
    logins: map<Tid, LoginPc>,
    closes: map<nat, ClosePc>,               // per client: its OnClose in progress
    uuids: nat,
    wins: nat, removals: nat, lost: bool)

  const Empty := State(None, [], map[], map[], map[], 0, 0, 0, false)

  datatype Step =
    | Begin(t: Tid, n: NodeNo)
    | Run(t: Tid)
    | SwapFails(t: Tid)                      // the store answers GETSET with an error
    | SocketClosed(c: nat)                   // after Close, or because the peer went away
    | CloseStep(c: nat)
    | Expire

  predicate Enabled(s: State, st: Step) {
    match st
    case Begin(t, _) => t !in s.logins
    case Run(t) => t in s.logins
    case SwapFails(t) => t in s.logins && s.logins[t].Swap?
    case SocketClosed(c) => c < |s.conns| && !s.conns[c].gone
    case CloseStep(c) => c in s.closes
    case Expire => true
  }

  /** DEL, or expiry. */
  function Erased(s: State): State {
    s.(dir := None, removals := s.removals + if s.dir.Some? then 1 else 0)
  }

  function Offline(s: State, c: nat): State
    requires c < |s.conns|
  {
    s.(conns := s.conns[c := s.conns[c].(online := false)])
  }

  /** Close on whatever is registered at node n. */
  function StopAt(s: State, n: NodeNo): State {
    if n in s.reg && s.reg[n] < |s.conns| then Offline(s, s.reg[n]) else s
  }

  function Goto(s: State, t: Tid, pc: LoginPc): State {
    s.(logins := s.logins[t := pc])
  }

  function Finish(s: State, t: Tid, lost: bool): State {
    s.(logins := s.logins - {t}, lost := lost)
  }

  function RunLogin(s: State, t: Tid, pc: LoginPc): State {
    match pc
    case Look(n) => if n in s.reg then Finish(StopAt(s, n), t, true) else Goto(s, t, Swap(n))
    case Swap(n) =>
      var s1 := s.(dir := Some(Entry(n, s.uuids)), uuids := s.uuids + 1);
      if s.dir.None? then Goto(s1.(wins := s.wins + 1), t, Register(n, s.uuids))
      else Goto(s1, t, Drop(n, s.dir))
    case Drop(n, prev) =>
      if prev.Some? then Goto(Erased(s), t, StopOld(prev.value)) else Finish(Erased(s), t, true)
    case StopOld(victim) => Finish(StopAt(s, victim.node), t, true)
    case Register(n, uuid) =>
      Finish(s.(conns := s.conns + [Conn(n, uuid, true, false, false)], reg := s.reg[n := |s.conns|]), t, false)
  }

  /** Handler.OnClose looks the client up by uid, so it tears down whatever is registered on the node. */
  function Closed(s: State, c: nat): State
    requires c < |s.conns|
  {
    var s1 := s.(conns := s.conns[c := s.conns[c].(gone := true)]);
    var n := s.conns[c].node;
    if n in s.reg && s.reg[n] < |s.conns| && !s1.conns[s.reg[n]].torn then
      var x := s.reg[n];
      s1.(conns := s1.conns[x := s1.conns[x].(torn := true, online := false)], closes := s.closes[x := Unregister])
    else s1
  }

  function RunClose(s: State, c: nat): State
    requires c in s.closes
  {
    if s.closes[c].Unregister? then
      s.(reg := if c < |s.conns| then s.reg - {s.conns[c].node} else s.reg, closes := s.closes[c := Erase])
    else Erased(s).(closes := s.closes - {c})
  }

  function Apply(s: State, st: Step): State
    requires Enabled(s, st)
  {
    match st
    case Begin(t, n) => Goto(s, t, Look(n)).(lost := false)
    case Run(t) => RunLogin(s, t, s.logins[t])
    case SwapFails(t) => Goto(s, t, Drop(s.logins[t].n, None))
    case SocketClosed(c) => Closed(s, c)
    case CloseStep(c) => RunClose(s, c)
    case Expire => Erased(s)
  }

  ghost predicate Next(s: State, s': State) {
    exists st: Step :: Enabled(s, st) && s' == Apply(s, st)
  }

  ghost predicate Linked(tr: seq<State>, i: nat)
    requires i + 1 < |tr|
  {
    Next(tr[i], tr[i + 1])
  }

  ghost predicate IsRun(tr: seq<State>) {
    |tr| > 0 && tr[0] == Empty && forall i: nat :: i + 1 < |tr| ==> Linked(tr, i)
  }

  // ---- arbitration, at every interleaving --------------------------------------------------

  predicate Balanced(s: State) {
    s.wins == s.removals + if s.dir.Some? then 1 else 0
  }

  lemma StepKeepsBalance(s: State, st: Step)
    requires Balanced(s) && Enabled(s, st)
    ensures Balanced(Apply(s, st))
    ensures Apply(s, st).wins > s.wins ==>
      s.wins == s.removals && s.dir.None? && Apply(s, st).wins == s.wins + 1 && Apply(s, st).removals == s.removals
    ensures Apply(s, st).removals >= s.removals && Apply(s, st).wins >= s.wins
  {
  }

  /** However many nodes race, and whatever fails or expires: won logins = effective removals of the
      key, plus one if it is present. */
  lemma {:induction false} Arbitration(tr: seq<State>, i: nat)
    requires IsRun(tr) && i < |tr|
    ensures Balanced(tr[i])
  {
    if i > 0 {
      Arbitration(tr, i - 1);
      assert Linked(tr, i - 1);
      var st :| Enabled(tr[i - 1], st) && tr[i] == Apply(tr[i - 1], st);
      StepKeepsBalance(tr[i - 1], st);
    }
  }

  lemma {:induction false} CountsGrow(tr: seq<State>, i: nat, j: nat)
    requires IsRun(tr) && i <= j < |tr|
    ensures tr[i].removals <= tr[j].removals && tr[i].wins <= tr[j].wins
    decreases j - i
  {
    if i < j {
      CountsGrow(tr, i, j - 1);
      Arbitration(tr, j - 1);
      assert Linked(tr, j - 1);
      var st :| Enabled(tr[j - 1], st) && tr[j] == Apply(tr[j - 1], st);
      StepKeepsBalance(tr[j - 1], st);
    }
  }

  lemma WinStartsBalanced(tr: seq<State>, i: nat)
    requires IsRun(tr) && i + 1 < |tr| && tr[i].wins < tr[i + 1].wins
    ensures tr[i].wins == tr[i].removals && tr[i + 1].wins == tr[i].wins + 1 && tr[i + 1].removals == tr[i].removals
  {
    Arbitration(tr, i);
    assert Linked(tr, i);
    var a :| Enabled(tr[i], a) && tr[i + 1] == Apply(tr[i], a);
    StepKeepsBalance(tr[i], a);
  }

  /** Between two won logins the key has been removed. */
  lemma RemovalBetweenWins(tr: seq<State>, i: nat, j: nat)
    requires IsRun(tr) && i < j && j + 1 < |tr|
    requires tr[i].wins < tr[i + 1].wins && tr[j].wins < tr[j + 1].wins
    ensures tr[i + 1].removals < tr[j].removals
  {
    WinStartsBalanced(tr, i);
    WinStartsBalanced(tr, j);
    CountsGrow(tr, i + 1, j);
  }

  // ---- one connection per user, in orderly runs --------------------------------------------

  /** Nothing is under way for the user: no login, no close, and no client waiting to be closed. */
  predicate Quiet(s: State) {
    && s.logins == map[] && s.closes == map[]
    && forall n :: n in s.reg ==> s.reg[n] < |s.conns| && s.conns[s.reg[n]].online
  }

  /** A login begins only when the one before has ended and the directory has the user's key, or else
      nothing is under way for the user; the store neither fails nor expires the key. A user may log in
      again, and again, while an ordinary disconnect is still being torn down. */
  predicate Orderly(s: State, st: Step) {
    !st.SwapFails? && !st.Expire? && (st.Begin? ==> s.logins == map[] && (s.dir.Some? || Quiet(s)))
  }

  ghost predicate OrderlyLinked(tr: seq<State>, i: nat)
    requires i + 1 < |tr|
  {
    exists st: Step :: Enabled(tr[i], st) && Orderly(tr[i], st) && tr[i + 1] == Apply(tr[i], st)
  }

  ghost predicate IsOrderlyRun(tr: seq<State>) {
    |tr| > 0 && tr[0] == Empty && forall i: nat :: i + 1 < |tr| ==> OrderlyLinked(tr, i)
  }

  function EntryOf(s: State, c: nat): Entry
    requires c < |s.conns|
  {
    Entry(s.conns[c].node, s.conns[c].uuid)
  }

  /** The user's connection, if there is one, and how far its teardown has got. */
  datatype Phase = Live | Tearing | Erasing
  datatype Situation = Nobody | Client(c: nat, phase: Phase)

  /** The registry, the close in progress and the flags of all client objects are those of the
      situation. */
  predicate SituationIs(s: State, sit: Situation) {
    match sit
    case Nobody => s.reg == map[] && s.closes == map[]
    case Client(c, phase) =>
      && c < |s.conns|
      && s.reg == (if phase.Erasing? then map[] else map[s.conns[c].node := c])
      && s.closes ==
         (match phase case Live => map[] case Tearing => map[c := Unregister] case Erasing => map[c := Erase])
      && s.conns[c].torn == s.conns[c].gone == !phase.Live?
      && (s.conns[c].torn ==> !s.conns[c].online)
  }

  predicate OthersGone(s: State, sit: Situation) {
    forall x: nat :: x < |s.conns| && (sit.Client? ==> x != sit.c) ==> s.conns[x].gone
  }

  predicate LoginsAre(s: State, l: Option<(Tid, LoginPc)>) {
    s.logins == match l case None => map[] case Some(p) => map[p.0 := p.1]
  }

  /** The directory entry the situation calls for when no login has interfered. */
  function Key(s: State, sit: Situation): Option<Entry>
    requires sit.Client? ==> sit.c < |s.conns|
  {
    if sit.Client? then Some(EntryOf(s, sit.c)) else None
  }

  /** What the one login under way implies for the directory. */
  predicate DirectoryOk(s: State, l: Option<(Tid, LoginPc)>, sit: Situation)
    requires sit.Client? ==> sit.c < |s.conns|
  {
    match l
    case None =>
      && (s.dir == Key(s, sit) || (s.dir.None? && !s.conns[sit.c].online))
      && (!s.lost ==> s.dir == Key(s, sit))
      && (s.lost && sit.Client? ==> !s.conns[sit.c].online)
    case Some(p) =>
      (match p.1
       case Look(_) => s.dir == Key(s, sit)
       case Swap(_) => s.dir == Key(s, sit)
       case Drop(_, prev) => prev.Some? && (sit.Client? ==> EntryOf(s, sit.c) == prev.value)
       case StopOld(victim) => s.dir.None? && (sit.Client? ==> EntryOf(s, sit.c) == victim)
       case Register(n, uuid) => sit.Nobody? && s.dir == Some(Entry(n, uuid)))
  }

  predicate At(s: State, l: Option<(Tid, LoginPc)>, sit: Situation) {
    SituationIs(s, sit) && OthersGone(s, sit) && LoginsAre(s, l) && DirectoryOk(s, l, sit)
  }

  lemma Busy(s: State, l: Option<(Tid, LoginPc)>, sit: Situation)
    requires At(s, l, sit)
    ensures l.Some? ==> s.logins != map[]
    ensures sit.Client? && !sit.phase.Live? ==> s.closes != map[]
    ensures sit.Client? && sit.phase.Live? ==> s.conns[sit.c].node in s.reg
  {
    if l.Some? { assert l.value.0 in s.logins; }
    if sit.Client? && !sit.phase.Live? { assert sit.c in s.closes; }
  }

  lemma QuietMeans(s: State, l: Option<(Tid, LoginPc)>, sit: Situation)
    requires At(s, l, sit) && Quiet(s)
    ensures l.None? &&
      (sit.Client? ==> sit.phase.Live? && s.conns[sit.c].online && s.reg == map[s.conns[sit.c].node := sit.c])
  {
    Busy(s, l, sit);
  }

  lemma RegisterKeepsAt(s: State, t: Tid, sit: Situation)
    requires t in s.logins && s.logins[t].Register? && At(s, Some((t, s.logins[t])), sit)
    ensures At(RunLogin(s, t, s.logins[t]), None, Client(|s.conns|, Live))
  {
  }

  lemma LookKeepsAt(s: State, t: Tid, sit: Situation)
    requires t in s.logins && (s.logins[t].Look? || s.logins[t].StopOld?) && At(s, Some((t, s.logins[t])), sit)
    ensures var s' := RunLogin(s, t, s.logins[t]); At(s', if t in s'.logins then Some((t, s'.logins[t])) else None, sit)
  {
    var s', pc := RunLogin(s, t, s.logins[t]), s.logins[t];
    assert t !in s'.logins ==> s'.logins == map[];
    if sit.Client? && !sit.phase.Erasing? { assert s.conns[sit.c].node in s.reg; }
  }

  lemma SwapKeepsAt(s: State, t: Tid, sit: Situation)
    requires t in s.logins && (s.logins[t].Swap? || s.logins[t].Drop?) && At(s, Some((t, s.logins[t])), sit)
    ensures var s' := RunLogin(s, t, s.logins[t]); t in s'.logins && At(s', Some((t, s'.logins[t])), sit)
  {
  }

  lemma LoginKeepsAt(
    s: State, t: Tid, l: Option<(Tid, LoginPc)>, sit: Situation)
    returns (l': Option<(Tid, LoginPc)>, sit': Situation)
    requires At(s, l, sit) && t in s.logins
    ensures At(RunLogin(s, t, s.logins[t]), l', sit')
  {
    var s' := RunLogin(s, t, s.logins[t]);
    assert l == Some((t, s.logins[t]));
    l', sit' := if t in s'.logins then Some((t, s'.logins[t])) else None, sit;
    match s.logins[t]
    case Register(_, _) =>
      RegisterKeepsAt(s, t, sit);
      l', sit' := None, Client(|s.conns|, Live);
    case Look(_) => LookKeepsAt(s, t, sit);
    case StopOld(_) => LookKeepsAt(s, t, sit);
    case _ => SwapKeepsAt(s, t, sit);
  }

  lemma ClosingKeepsAt(s: State, c: nat, l: Option<(Tid, LoginPc)>, sit: Situation) returns (sit': Situation)
    requires At(s, l, sit) && c in s.closes
    ensures At(RunClose(s, c), l, sit')
  {
    sit' := if sit.phase.Tearing? then Client(c, Erasing) else Nobody;
  }

  lemma SocketKeepsAt(s: State, c: nat, l: Option<(Tid, LoginPc)>, sit: Situation) returns (sit': Situation)
    requires At(s, l, sit) && c < |s.conns| && !s.conns[c].gone
    ensures At(Closed(s, c), l, sit')
  {
    assert sit == Client(c, Live);
    sit' := Client(c, Tearing);
  }

  lemma StepKeepsAt(
    s: State, st: Step, l: Option<(Tid, LoginPc)>, sit: Situation)
    returns (l': Option<(Tid, LoginPc)>, sit': Situation)
    requires At(s, l, sit) && Enabled(s, st) && Orderly(s, st)
    ensures At(Apply(s, st), l', sit')
  {
    l', sit' := l, sit;
    match st
    case Begin(t, n) =>
      Busy(s, l, sit);
      if s.dir.None? { QuietMeans(s, l, sit); }
      l' := Some((t, Look(n)));
    case Run(t) => l', sit' := LoginKeepsAt(s, t, l, sit);
    case SocketClosed(c) => sit' := SocketKeepsAt(s, c, l, sit);
    case CloseStep(c) => sit' := ClosingKeepsAt(s, c, l, sit);
  }

  lemma {:induction false} OrderlyRunAt(tr: seq<State>, i: nat) returns (l: Option<(Tid, LoginPc)>, sit: Situation)
    requires IsOrderlyRun(tr) && i < |tr|
    ensures At(tr[i], l, sit)
  {
    if i == 0 {
      l, sit := None, Nobody;
    } else {
      l, sit := OrderlyRunAt(tr, i - 1);
      assert OrderlyLinked(tr, i - 1);
      var st :| Enabled(tr[i - 1], st) && Orderly(tr[i - 1], st) && tr[i] == Apply(tr[i - 1], st);
      l, sit := StepKeepsAt(tr[i - 1], st, l, sit);
    }
  }

  /** At every point of an orderly run at most one node has the user registered. */
  lemma OneConnection(tr: seq<State>, i: nat, a: NodeNo, b: NodeNo)
    requires IsOrderlyRun(tr) && i < |tr| && a in tr[i].reg && b in tr[i].reg
    ensures a == b
  {
    var l, sit := OrderlyRunAt(tr, i);
  }

  /** And when nothing is under way, the directory has the user exactly when it is connected, and
      names that connection; a duplicate login has left neither the old nor the new one. */
  lemma DirectoryMatches(tr: seq<State>, i: nat)
    requires IsOrderlyRun(tr) && i < |tr| && Quiet(tr[i])
    ensures tr[i].dir.None? <==> tr[i].reg == map[]
    ensures tr[i].dir.Some? ==>
      var n := tr[i].dir.value.node;
      n in tr[i].reg && tr[i].reg[n] < |tr[i].conns| && EntryOf(tr[i], tr[i].reg[n]) == tr[i].dir.value
    ensures tr[i].lost ==> tr[i].reg == map[] && tr[i].dir.None?
  {
    var l, sit := OrderlyRunAt(tr, i);
    QuietMeans(tr[i], l, sit);
    if sit.Client? { assert tr[i].conns[sit.c].node in tr[i].reg; }
  }

  // ---- all users at once -------------------------------------------------------------------

  /** Everything the nodes and the directory keep is keyed by uid. */
  type World = map<Uid, State>

  function Of(w: World, u: Uid): State {
    if u in w then w[u] else Empty
  }

  ghost predicate WorldLinked(ws: seq<World>, i: nat)
    requires i + 1 < |ws|
  {
    exists u: Uid, st: Step :: Enabled(Of(ws[i], u), st) && Orderly(Of(ws[i], u), st) &&
      ws[i + 1] == ws[i][u := Apply(Of(ws[i], u), st)]
  }

  ghost predicate IsWorldRun(ws: seq<World>) {
    |ws| > 0 && ws[0] == map[] && forall i: nat :: i + 1 < |ws| ==> WorldLinked(ws, i)
  }

  /** The steps of other users leave a user's state alone, so each user sees an orderly run. */
  lemma {:induction false} WorldAt(ws: seq<World>, i: nat, u: Uid) returns (l: Option<(Tid, LoginPc)>, sit: Situation)
    requires IsWorldRun(ws) && i < |ws|
    ensures At(Of(ws[i], u), l, sit)
  {
    if i == 0 {
      l, sit := None, Nobody;
    } else {
      l, sit := WorldAt(ws, i - 1, u);
      assert WorldLinked(ws, i - 1);
      var x, st :| Enabled(Of(ws[i - 1], x), st) && Orderly(Of(ws[i - 1], x), st) &&
        ws[i] == ws[i - 1][x := Apply(Of(ws[i - 1], x), st)];
      if x == u { l, sit := StepKeepsAt(Of(ws[i - 1], u), st, l, sit); }
    }
  }

  /** With all users logging in and out at once, and only the logins of one and the same user kept
      apart: every user is registered on at most one node, and whenever nothing is under way for a
      user, its directory key exists exactly when it is connected and names that connection. */
  lemma UniqueLogin(ws: seq<World>, i: nat, u: Uid)
    requires IsWorldRun(ws) && i < |ws|
    ensures forall a, b :: a in Of(ws[i], u).reg && b in Of(ws[i], u).reg ==> a == b
    ensures Quiet(Of(ws[i], u)) ==> (Of(ws[i], u).dir.None? <==> Of(ws[i], u).reg == map[])
    ensures Quiet(Of(ws[i], u)) && Of(ws[i], u).dir.Some? ==>
      var s := Of(ws[i], u); var n := s.dir.value.node;
      n in s.reg && s.reg[n] < |s.conns| && s.conns[s.reg[n]].online && EntryOf(s, s.reg[n]) == s.dir.value
    ensures Quiet(Of(ws[i], u)) && Of(ws[i], u).lost ==> Of(ws[i], u).reg == map[] && Of(ws[i], u).dir.None?
  {
    var l, sit := WorldAt(ws, i, u);
    var s := Of(ws[i], u);
    Busy(s, l, sit);
    if Quiet(s) { QuietMeans(s, l, sit); }
  }

  // ---- and not otherwise -------------------------------------------------------------------

  lemma Extend(tr: seq<State>, st: Step) returns (tr': seq<State>)
    requires IsRun(tr) && Enabled(tr[|tr| - 1], st)
    ensures IsRun(tr') && |tr'| == |tr| + 1 && tr'[|tr|] == Apply(tr[|tr| - 1], st)
  {
    tr' := tr + [Apply(tr[|tr| - 1], st)];
    forall i: nat | i + 1 < |tr'| ensures Linked(tr', i) {
      if i + 1 < |tr| { assert Linked(tr, i); }
    }
  }

  /** If logins of one user overlap it can end up connected to two nodes: a second login can find the
      first one's key before the first one's client is registered, erase the key and stop nobody;
      then a third login wins. */
  lemma OverlapAllowsTwo() returns (tr: seq<State>)
    ensures IsRun(tr)
    ensures tr[|tr| - 1].logins == map[] && tr[|tr| - 1].closes == map[] && 0 in tr[|tr| - 1].reg &&
      1 in tr[|tr| - 1].reg
    ensures |tr[|tr| - 1].conns| == 2 && tr[|tr| - 1].conns[0].online && tr[|tr| - 1].conns[1].online
  {
    tr := [Empty];
    tr := Extend(tr, Begin(1, 0));
    tr := Extend(tr, Run(1));
    tr := Extend(tr, Run(1));
    assert tr[|tr| - 1] == State(Some(Entry(0, 0)), [], map[], map[1 := Register(0, 0)], map[], 1, 1, 0, false);
    tr := Extend(tr, Begin(2, 1));
    tr := Extend(tr, Run(2));
    tr := Extend(tr, Run(2));
    tr := Extend(tr, Run(2));
    assert tr[|tr| - 1].logins == map[1 := Register(0, 0), 2 := StopOld(Entry(0, 0))];
    tr := Extend(tr, Run(2));
    assert tr[|tr| - 1] == State(None, [], map[], map[1 := Register(0, 0)], map[], 2, 1, 1, true);
    tr := Extend(tr, Run(1));
    assert tr[|tr| - 1] == State(None, [Conn(0, 0, true, false, false)], map[0 := 0], map[], map[], 2, 1, 1, false);
    tr := Win(tr, 3, 1);
  }

  /** The user connected to node 0, and nothing under way. */
  lemma Connected() returns (tr: seq<State>)
    ensures IsRun(tr) && Quiet(tr[|tr| - 1])
    ensures tr[|tr| - 1] ==
      State(Some(Entry(0, 0)), [Conn(0, 0, true, false, false)], map[0 := 0], map[], map[], 1, 1, 0, false)
  {
    tr := Win([Empty], 1, 0);
  }

  /** ... and its directory key lost: it expired, or a second login's swap failed and that login
      erased the key all the same. */
  lemma KeyLost(expires: bool) returns (tr: seq<State>)
    ensures IsRun(tr)
    ensures var s := tr[|tr| - 1];
      s.dir.None? && s.reg == map[0 := 0] && s.logins == map[] && s.closes == map[] &&
        s.conns == [Conn(0, 0, true, false, false)]
  {
    tr := Connected();
    if expires {
      tr := Extend(tr, Expire);
    } else {
      tr := Extend(tr, Begin(2, 1));
      tr := Extend(tr, Run(2));
      tr := Extend(tr, SwapFails(2));
      tr := Extend(tr, Run(2));
    }
  }

  /** So even with logins kept apart, expiry or a failed swap lets the next login win beside the first
      connection. */
  lemma FailureAllowsTwo(expires: bool) returns (tr: seq<State>)
    ensures IsRun(tr) && Quiet(tr[|tr| - 1]) && 0 in tr[|tr| - 1].reg && 1 in tr[|tr| - 1].reg
  {
    tr := KeyLost(expires);
    tr := Win(tr, 3, 1);
  }

  /** And keeping each login apart from the others is not enough: a login that loses to a connection
      being torn down erases its key; if the next login wins before that teardown ends, the teardown
      erases the new key, and a further login wins beside it. */
  lemma StaleEraseAllowsTwo() returns (tr: seq<State>)
    ensures IsRun(tr) && Quiet(tr[|tr| - 1]) && 1 in tr[|tr| - 1].reg && 2 in tr[|tr| - 1].reg
  {
    tr := Connected();
    tr := Extend(tr, SocketClosed(0));
    tr := Lose(tr);
    tr := Win(tr, 3, 1);
    tr := Extend(tr, CloseStep(0));
    tr := Extend(tr, CloseStep(0));
    assert tr[|tr| - 1].closes == map[] && tr[|tr| - 1].reg == map[1 := 1];
    tr := Win(tr, 4, 2);
  }

  lemma Lose(tr0: seq<State>) returns (tr: seq<State>)
    requires IsRun(tr0)
    requires tr0[|tr0| - 1] ==
      State(Some(Entry(0, 0)), [Conn(0, 0, false, true, true)], map[0 := 0], map[], map[0 := Unregister],
            1, 1, 0, false)
    ensures IsRun(tr)
    ensures tr[|tr| - 1] ==
      State(None, [Conn(0, 0, false, true, true)], map[0 := 0], map[], map[0 := Unregister], 2, 1, 1, true)
  {
    tr := Extend(tr0, Begin(2, 1));
    tr := Extend(tr, Run(2));
    tr := Extend(tr, Run(2));
    assert tr[|tr| - 1].logins == map[2 := Drop(1, Some(Entry(0, 0)))];
    tr := Extend(tr, Run(2));
    tr := Extend(tr, Run(2));
    assert tr[|tr| - 1].logins == map[];
  }

  /** A login that finds no key and no client on its node. */
  lemma Win(tr0: seq<State>, t: Tid, n: NodeNo) returns (tr: seq<State>)
    requires IsRun(tr0) && tr0[|tr0| - 1].logins == map[] && tr0[|tr0| - 1].dir.None? && n !in tr0[|tr0| - 1].reg
    ensures IsRun(tr)
    ensures var s, s' := tr0[|tr0| - 1], tr[|tr| - 1];
      s' == s.(dir := Some(Entry(n, s.uuids)), conns := s.conns + [Conn(n, s.uuids, true, false, false)],
               reg := s.reg[n := |s.conns|], uuids := s.uuids + 1, wins := s.wins + 1, lost := false)
  {
    tr := Extend(tr0, Begin(t, n));
    tr := Extend(tr, Run(t));
    tr := Extend(tr, Run(t));
    assert tr[|tr| - 1].logins == map[t := Register(n, tr0[|tr0| - 1].uuids)];
    tr := Extend(tr, Run(t));
    assert tr[|tr| - 1].logins == map[];
  }

  /** Logins that have won and are about to register. */
  function Winners(s: State): set<Tid> {
    set t | t in s.logins && s.logins[t].Register?
  }

  /** Connections of the user: registered on a node, or won and about to be. */
  function Claims(s: State): nat {
    |s.reg| + |Winners(s)|
  }

  lemma WinnersAfter(s: State, t: Tid, pc: LoginPc)
    requires t in s.logins && s.logins[t] == pc
    ensures var w := Winners(RunLogin(s, t, pc));
      w == if pc.Swap? && s.dir.None? then Winners(s) + {t} else Winners(s) - {t}
    ensures pc.Register? <==> t in Winners(s)
  {
  }

  lemma RegisterClaims(s: State, s': State, t: Tid, n: NodeNo, c: nat)
    requires s'.reg == s.reg[n := c] && t in Winners(s) && Winners(s') == Winners(s) - {t}
    ensures Claims(s') <= Claims(s)
  {
  }

  lemma RegUnchanged(s: State, t: Tid, pc: LoginPc)
    requires !pc.Register?
    ensures RunLogin(s, t, pc).reg == s.reg
    ensures RunLogin(s, t, pc).wins > s.wins <==> pc.Swap? && s.dir.None?
  {
  }

  lemma RunClaims(s: State, t: Tid, pc: LoginPc)
    requires t in s.logins && s.logins[t] == pc
    ensures var s' := RunLogin(s, t, pc);
      if s'.wins > s.wins then Claims(s') == Claims(s) + 1 else Claims(s') <= Claims(s)
  {
    WinnersAfter(s, t, pc);
    if pc.Register? {
      RegisterClaims(s, RunLogin(s, t, pc), t, pc.n, |s.conns|);
    } else {
      RegUnchanged(s, t, pc);
      assert Winners(s) - {t} == Winners(s);
    }
  }

  lemma CloseClaims(s: State, c: nat)
    requires c in s.closes
    ensures Claims(RunClose(s, c)) <= Claims(s)
  {
  }

  lemma SameClaims(s: State, s': State)
    requires s'.reg == s.reg && Winners(s') == Winners(s)
    ensures Claims(s') == Claims(s)
  {
  }

  /** A won login adds a connection; no other step does. */
  lemma StepClaims(s: State, st: Step)
    requires Enabled(s, st)
    ensures var s' := Apply(s, st);
      if s'.wins > s.wins then Claims(s') == Claims(s) + 1 else Claims(s') <= Claims(s)
  {
    match st
    case Run(t) => RunClaims(s, t, s.logins[t]);
    case CloseStep(c) => CloseClaims(s, c);
    case _ => SameClaims(s, Apply(s, st));
  }

  /** The user has a connection, and the directory does not show it. */
  predicate Uncovered(s: State) {
    Claims(s) > 0 && s.dir.None?
  }

  /** A step that takes the key away: the delete of a lost or failed login, the delete of a close, or
      expiry. */
  predicate Erases(s: State, st: Step)
    requires Enabled(s, st)
  {
    && s.dir.Some?
    && match st
       case Run(t) => s.logins[t].Drop?
       case CloseStep(c) => s.closes[c].Erase?
       case Expire => true
       case _ => false
  }

  lemma ErasingKeepsClaims(s: State, st: Step)
    requires Enabled(s, st) && Erases(s, st)
    ensures Claims(Apply(s, st)) == Claims(s) && Apply(s, st).dir.None?
  {
    if st.Run? {
      WinnersAfter(s, st.t, s.logins[st.t]);
      assert Winners(s) - {st.t} == Winners(s);
    }
    SameClaims(s, Apply(s, st));
  }

  /** A connection drops out of the directory exactly when its key is erased. */
  lemma UncoveredByErasing(s: State, st: Step)
    requires Enabled(s, st) && !Uncovered(s)
    ensures Uncovered(Apply(s, st)) <==> Erases(s, st) && Claims(s) > 0
  {
    StepClaims(s, st);
    if Erases(s, st) { ErasingKeepsClaims(s, st); }
  }

  /** Step j of the run erases the key of a user that has a connection. */
  ghost predicate ErasedAt(tr: seq<State>, j: nat) {
    && j + 1 < |tr| && Claims(tr[j]) > 0
    && exists st: Step :: Enabled(tr[j], st) && Erases(tr[j], st) && tr[j + 1] == Apply(tr[j], st)
  }

  /** Step i of the run is the swap of a login. */
  ghost predicate SwapAt(tr: seq<State>, i: nat) {
    && i + 1 < |tr|
    && exists t: Tid :: t in tr[i].logins && tr[i].logins[t].Swap? && tr[i + 1] == RunLogin(tr[i], t, tr[i].logins[t])
  }

  /** Step j erases the key, the connection stays and nobody puts a key in its place, and step i swaps. */
  ghost predicate Exposed(tr: seq<State>, j: nat, i: nat) {
    j < i < |tr| && ErasedAt(tr, j) && (forall k :: j < k <= i ==> Uncovered(tr[k])) && SwapAt(tr, i)
  }

  /** Every uncovered state goes back, through uncovered states, to an erasing step. */
  lemma {:induction false} GoesBack(tr: seq<State>, i: nat) returns (j: nat)
    requires IsRun(tr) && i < |tr| && Uncovered(tr[i])
    ensures j < i && ErasedAt(tr, j) && forall k :: j < k <= i ==> Uncovered(tr[k])
  {
    assert i > 0 by { assert Winners(Empty) == {}; }
    assert Linked(tr, i - 1);
    var st :| Enabled(tr[i - 1], st) && tr[i] == Apply(tr[i - 1], st);
    if Uncovered(tr[i - 1]) {
      j := GoesBack(tr, i - 1);
    } else {
      UncoveredByErasing(tr[i - 1], st);
      j := i - 1;
    }
  }

  /** A second connection comes from a swap in an uncovered state. */
  lemma {:induction false} SecondComesFrom(tr: seq<State>, n: nat) returns (i: nat)
    requires IsRun(tr) && n < |tr| && Claims(tr[n]) > 1
    ensures i < n && Uncovered(tr[i]) && SwapAt(tr, i)
  {
    assert n > 0 by { assert Winners(Empty) == {}; }
    assert Linked(tr, n - 1);
    var st :| Enabled(tr[n - 1], st) && tr[n] == Apply(tr[n - 1], st);
    if Claims(tr[n - 1]) > 1 {
      i := SecondComesFrom(tr, n - 1);
    } else {
      StepClaims(tr[n - 1], st);
      WinIsSwap(tr[n - 1], st);
      i := n - 1;
    }
  }

  lemma WinIsSwap(s: State, st: Step)
    requires Enabled(s, st)
    ensures Apply(s, st).wins > s.wins <==> st.Run? && s.logins[st.t].Swap? && s.dir.None?
  {
    if st.Run? && !s.logins[st.t].Register? { RegUnchanged(s, st.t, s.logins[st.t]); }
  }

  lemma ExposedMeansTwo(tr: seq<State>, j: nat, i: nat)
    requires IsRun(tr) && Exposed(tr, j, i)
    ensures i + 1 < |tr| && Claims(tr[i + 1]) > 1
  {
    var t :| t in tr[i].logins && tr[i].logins[t].Swap? && tr[i + 1] == RunLogin(tr[i], t, tr[i].logins[t]);
    assert Uncovered(tr[i]);
    WinIsSwap(tr[i], Run(t));
    StepClaims(tr[i], Run(t));
  }

  /** Over every run, orderly or not, with failures and expiry: the user comes to have two connections
      if and only if the key of a connected user is erased and, with that connection still there and
      the key still missing, another login swaps. */
  lemma ExactlyWhenUnique(tr: seq<State>)
    requires IsRun(tr)
    ensures (exists n: nat :: n < |tr| && Claims(tr[n]) > 1) <==> (exists j: nat, i: nat :: Exposed(tr, j, i))
  {
    if n: nat :| n < |tr| && Claims(tr[n]) > 1 {
      var i := SecondComesFrom(tr, n);
      var j := GoesBack(tr, i);
      assert Exposed(tr, j, i);
    }
    if j: nat, i: nat :| Exposed(tr, j, i) {
      ExposedMeansTwo(tr, j, i);
    }
  }
}
