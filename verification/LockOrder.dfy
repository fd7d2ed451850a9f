/** The locks and group channels of one node, acquisition by acquisition. GroupProtocol takes the
    sections under the managers' locks and the clients' own locks as single steps; here every lock of
    the package is explicit, with Go's reader-writer semantics: an announced writer bars new readers.

    A call is the sequence of lock and channel operations it performs on the path it takes, with its
    accesses to what the locks guard: the maps of groups, clients and connections, the users of a
    group, the groups of a client, and `State` in Close. Every path of the code is a script, so what
    holds for all scripts holds whichever path is taken. */
module LockOrder {
  import opened Types

  /** `c` and `g` are the identities of a client and of a group object. */
  datatype LockId =
    | CloseOnce(c: nat)        // Client.closeOnce
    | ClientGroups(c: nat)     // Client.TGroupLock
    | GroupUsers(g: nat)       // TGroup.UsersLock
    | GroupTable               // TGroupManager.TGroupsLock
    | ClientTable              // ClientManager.ClientsLock
    | ConnTable                // ClientManager.ConnIdxLock
    | ClientState(c: nat)      // Client.lock

  function Rank(l: LockId): nat {
    match l
    case CloseOnce(_) => 0
    case ClientGroups(_) => 1
    case GroupUsers(_) => 2
    case _ => 3
  }

  datatype Op =
    | Acquire(l: LockId, write: bool)
    | Release(l: LockId)
    | Touch(l: LockId, write: bool)       // an access to what the lock guards
    | Push(g: nat)                        // a blocking send on the group's channel
    | CloseChan(g: nat)

  type Script = seq<Op>

  // ---- what the code does ------------------------------------------------------------------

  /** Under the lock, an access to what it guards and then the rest. */
  function Section(l: LockId, write: bool, body: Script): Script {
    [Acquire(l, write), Touch(l, write)] + body + [Release(l)]
  }

  function Sections(blocks: seq<Script>): Script {
    if blocks == [] then [] else blocks[0] + Sections(blocks[1..])
  }

  function GetTGroup(): Script {
    Section(GroupTable, false, [])
  }

  /** TGroup.DeleteTGroup: out of the table, then the channel closed. */
  function DeleteTGroup(g: nat): Script {
    Section(GroupTable, true, []) + [CloseChan(g)]
  }

  /** One attempt to join: whether the first lookup found the group, and the group joined. */
  datatype Attempt = Attempt(found: bool, g: nat)

  function JoinOnce(a: Attempt): Script {
    GetTGroup() + (if a.found then [] else Section(GroupTable, true, [])) + Section(GroupUsers(a.g), true, [])
  }

  function UserJoinTGroup(tries: seq<Attempt>): Script {
    Sections(seq(|tries|, i requires 0 <= i < |tries| => JoinOnce(tries[i])))
  }

  /** A leave that finds no group, or leaves one and perhaps empties it. */
  datatype Exit = NoGroup | From(g: nat, empties: bool)

  function UserOutTGroup(e: Exit): Script {
    GetTGroup() +
    match e
    case NoGroup => []
    case From(g, empties) => Section(GroupUsers(g), true, if empties then DeleteTGroup(g) else [])
  }

  /** _outTGroup: out of the group, then of the client's own set. */
  function OutOne(c: nat, e: Exit): Script {
    UserOutTGroup(e) + [Touch(ClientGroups(c), true)]
  }

  function OutAllTGroup(c: nat, exits: seq<Exit>): Script {
    Section(ClientGroups(c), true, Sections(seq(|exits|, i requires 0 <= i < |exits| => OutOne(c, exits[i]))))
  }

  function GetClient(): Script {
    Section(ClientTable, false, [])
  }

  function CloseClient(c: nat): Script {
    Section(ClientState(c), true, [])
  }

  /** A member of a group being handed a message: without a client, or with one, closed or not. */
  datatype Target = Nobody | Somebody(c: nat, closes: bool)

  function OfferTo(to: Target): Script {
    GetClient() + if to.Somebody? && to.closes then CloseClient(to.c) else []
  }

  function SendToUsers(g: nat, targets: seq<Target>): Script {
    Section(GroupUsers(g), false, Sections(seq(|targets|, i requires 0 <= i < |targets| => OfferTo(targets[i]))))
  }

  datatype Call =
    | InTGroup(c: nat, tries: seq<Attempt>)
    | OutTGroup(c: nat, exit: Exit)
    | OutAll(c: nat, exits: seq<Exit>)
    | OnConnect
    | ByConn                              // the lookup of a client by its connection
    | Count                               // the number of clients
    | OnClose(c: nat, exits: seq<Exit>)
    | StopClient(to: Target)
    | LoopExit(c: nat)                    // the send loop of a client ends and closes it
    | SendToUser(to: Target)
    | SendToUserByTgid(to: Target)
    | SendToGroup(g: Option<nat>)         // the live group found, if any

  function ScriptOf(call: Call): Script {
    match call
    case InTGroup(c, tries) => UserJoinTGroup(tries) + Section(ClientGroups(c), true, [])
    case OutTGroup(c, exit) => UserOutTGroup(exit) + Section(ClientGroups(c), true, [])
    case OutAll(c, exits) => OutAllTGroup(c, exits)
    case ByConn => Section(ConnTable, false, [])
    case Count => Section(ClientTable, false, [])
    case OnConnect => Section(ClientTable, true, []) + Section(ConnTable, true, [])
    case OnClose(c, exits) =>
      Section(CloseOnce(c), true,
        OutAllTGroup(c, exits) + Section(ClientTable, true, []) + Section(ConnTable, true, []))
    case StopClient(to) => OfferTo(to)
    case LoopExit(c) => CloseClient(c)
    case SendToUser(to) => OfferTo(to)
    case SendToUserByTgid(to) =>
      GetClient() +
      if to.Nobody? then []
      else Section(ClientGroups(to.c), false, []) + if to.closes then CloseClient(to.c) else []
    case SendToGroup(g) => GetTGroup() + if g.Some? then [Push(g.value)] else []
  }

  // ---- the discipline ----------------------------------------------------------------------

  predicate Below(held: set<LockId>, r: nat) {
    forall h :: h in held ==> Rank(h) < r
  }

  /** `held` maps each lock in hand to whether it is held for writing. Locks are taken in strictly
      increasing rank, so never two of one rank; what a lock guards is accessed only under it, and
      changed only under it for writing; a channel send is made with no lock held; at the end none is
      held. */
  predicate Disciplined(held: map<LockId, bool>, ops: Script)
    decreases |ops|
  {
    if ops == [] then held == map[]
    else
      match ops[0]
      case Acquire(l, write) => Below(held.Keys, Rank(l)) && Disciplined(held[l := write], ops[1..])
      case Release(l) => l in held && Disciplined(held - {l}, ops[1..])
      case Touch(l, write) => l in held && (write ==> held[l]) && Disciplined(held, ops[1..])
      case Push(_) => held == map[] && Disciplined(held, ops[1..])
      case CloseChan(_) => Disciplined(held, ops[1..])
  }

  predicate Quiet(ops: Script) {
    forall o :: o in ops ==> !o.Push?
  }

  /** Only locks of rank below r are held, those in `own` among them and for writing. */
  predicate Holding(held: map<LockId, bool>, r: nat, own: set<LockId>) {
    Below(held.Keys, r) && forall l :: l in own ==> l in held && held[l]
  }

  /** A block that may stand before anything, under such locks. */
  ghost predicate NeutralUnder(block: Script, r: nat, own: set<LockId>) {
    forall held, k: Script :: Holding(held, r, own) && Disciplined(held, k) ==> Disciplined(held, block + k)
  }

  ghost predicate Neutral(block: Script, r: nat) {
    NeutralUnder(block, r, {})
  }

  lemma NeutralNil(r: nat, own: set<LockId>)
    ensures NeutralUnder([], r, own)
  {
    forall held, k: Script | Holding(held, r, own) && Disciplined(held, k) ensures Disciplined(held, [] + k) {
      assert [] + k == k;
    }
  }

  lemma NeutralThen(a: Script, b: Script, r: nat, own: set<LockId>)
    requires NeutralUnder(a, r, own) && NeutralUnder(b, r, own)
    ensures NeutralUnder(a + b, r, own)
  {
    forall held, k: Script | Holding(held, r, own) && Disciplined(held, k) ensures Disciplined(held, a + b + k) {
      assert Disciplined(held, b + k);
      assert a + b + k == a + (b + k);
    }
  }

  lemma NeutralMore(a: Script, r: nat, own: set<LockId>)
    requires Neutral(a, r)
    ensures NeutralUnder(a, r, own)
  {
    forall held, k: Script | Holding(held, r, own) && Disciplined(held, k) ensures Disciplined(held, a + k) {
      assert Holding(held, r, {});
    }
  }

  lemma NeutralSection(l: LockId, write: bool, body: Script, r: nat)
    requires r <= Rank(l) && NeutralUnder(body, Rank(l) + 1, if write then {l} else {})
    ensures Neutral(Section(l, write, body), r)
  {
    forall held, k: Script | Holding(held, r, {}) && Disciplined(held, k)
      ensures Disciplined(held, Section(l, write, body) + k)
    {
      SectionStep(held, l, write, body, r, k);
    }
  }

  lemma SectionStep(held: map<LockId, bool>, l: LockId, write: bool, body: Script, r: nat, k: Script)
    requires r <= Rank(l) && NeutralUnder(body, Rank(l) + 1, if write then {l} else {})
    requires Below(held.Keys, r) && Disciplined(held, k)
    ensures Disciplined(held, Section(l, write, body) + k)
  {
    var inner, with := [Release(l)] + k, held[l := write];
    assert l !in held;
    assert inner[1..] == k && with - {l} == held;
    assert Disciplined(with, inner) && Holding(with, Rank(l) + 1, if write then {l} else {});
    assert Disciplined(with, body + inner);
    var touched := [Touch(l, write)] + (body + inner);
    assert touched[1..] == body + inner && Disciplined(with, touched);
    var all := Section(l, write, body) + k;
    assert all[0] == Acquire(l, write) && all[1..] == touched;
  }

  lemma NeutralTouch(l: LockId, r: nat)
    ensures NeutralUnder([Touch(l, true)], r, {l})
  {
    forall held, k: Script | Holding(held, r, {l}) && Disciplined(held, k)
      ensures Disciplined(held, [Touch(l, true)] + k)
    {
      assert ([Touch(l, true)] + k)[1..] == k;
    }
  }

  lemma NeutralClose(g: nat, r: nat)
    ensures Neutral([CloseChan(g)], r)
  {
    forall held, k: Script | Holding(held, r, {}) && Disciplined(held, k)
      ensures Disciplined(held, [CloseChan(g)] + k)
    {
      assert ([CloseChan(g)] + k)[1..] == k;
    }
  }

  lemma {:induction false} NeutralSections(blocks: seq<Script>, r: nat, own: set<LockId>)
    requires forall i :: 0 <= i < |blocks| ==> NeutralUnder(blocks[i], r, own)
    ensures NeutralUnder(Sections(blocks), r, own)
  {
    if blocks == [] {
      NeutralNil(r, own);
    } else {
      NeutralSections(blocks[1..], r, own);
      NeutralThen(blocks[0], Sections(blocks[1..]), r, own);
    }
  }

  lemma NeutralPlain(l: LockId, write: bool, r: nat)
    requires r <= Rank(l)
    ensures Neutral(Section(l, write, []), r)
  {
    NeutralNil(Rank(l) + 1, if write then {l} else {});
    NeutralSection(l, write, [], r);
  }

  lemma NeutralDelete(g: nat, r: nat)
    requires r <= 3
    ensures Neutral(DeleteTGroup(g), r)
  {
    NeutralPlain(GroupTable, true, r);
    NeutralClose(g, r);
    NeutralThen(Section(GroupTable, true, []), [CloseChan(g)], r, {});
  }

  lemma NeutralJoin(tries: seq<Attempt>)
    ensures Neutral(UserJoinTGroup(tries), 0)
  {
    var blocks := seq(|tries|, i requires 0 <= i < |tries| => JoinOnce(tries[i]));
    forall i | 0 <= i < |blocks| ensures Neutral(blocks[i], 0) { NeutralJoinOnce(tries[i]); }
    NeutralSections(blocks, 0, {});
  }

  lemma NeutralJoinOnce(a: Attempt)
    ensures Neutral(JoinOnce(a), 0)
  {
    var make := if a.found then [] else Section(GroupTable, true, []);
    NeutralNil(0, {});
    NeutralPlain(GroupTable, false, 0);
    NeutralPlain(GroupTable, true, 0);
    NeutralPlain(GroupUsers(a.g), true, 0);
    NeutralThen(GetTGroup(), make, 0, {});
    NeutralThen(GetTGroup() + make, Section(GroupUsers(a.g), true, []), 0, {});
  }

  lemma NeutralOut(e: Exit, r: nat)
    requires r <= 2
    ensures Neutral(UserOutTGroup(e), r)
  {
    NeutralPlain(GroupTable, false, r);
    match e
    case NoGroup =>
      assert UserOutTGroup(e) == GetTGroup();
    case From(g, empties) =>
      var body := if empties then DeleteTGroup(g) else [];
      NeutralNil(3, {});
      NeutralDelete(g, 3);
      NeutralMore(body, 3, {GroupUsers(g)});
      NeutralSection(GroupUsers(g), true, body, r);
      NeutralThen(GetTGroup(), Section(GroupUsers(g), true, body), r, {});
  }

  lemma NeutralOutOne(c: nat, e: Exit)
    ensures NeutralUnder(OutOne(c, e), 2, {ClientGroups(c)})
  {
    NeutralOut(e, 2);
    NeutralMore(UserOutTGroup(e), 2, {ClientGroups(c)});
    NeutralTouch(ClientGroups(c), 2);
    NeutralThen(UserOutTGroup(e), [Touch(ClientGroups(c), true)], 2, {ClientGroups(c)});
  }

  lemma NeutralOutAll(c: nat, exits: seq<Exit>, r: nat)
    requires r <= 1
    ensures Neutral(OutAllTGroup(c, exits), r)
  {
    var blocks := seq(|exits|, i requires 0 <= i < |exits| => OutOne(c, exits[i]));
    forall i | 0 <= i < |blocks| ensures NeutralUnder(blocks[i], 2, {ClientGroups(c)}) { NeutralOutOne(c, exits[i]); }
    NeutralSections(blocks, 2, {ClientGroups(c)});
    NeutralSection(ClientGroups(c), true, Sections(blocks), r);
  }

  lemma NeutralOffer(to: Target, r: nat)
    requires r <= 3
    ensures Neutral(OfferTo(to), r)
  {
    var rest := if to.Somebody? && to.closes then CloseClient(to.c) else [];
    NeutralNil(r, {});
    NeutralPlain(ClientTable, false, r);
    if to.Somebody? { NeutralPlain(ClientState(to.c), true, r); }
    NeutralThen(GetClient(), rest, r, {});
  }

  lemma NeutralFanOut(g: nat, targets: seq<Target>)
    ensures Neutral(SendToUsers(g, targets), 0)
  {
    var blocks := seq(|targets|, i requires 0 <= i < |targets| => OfferTo(targets[i]));
    forall i | 0 <= i < |blocks| ensures Neutral(blocks[i], 3) { NeutralOffer(targets[i], 3); }
    NeutralSections(blocks, 3, {});
    NeutralSection(GroupUsers(g), false, Sections(blocks), 0);
  }

  lemma NeutralOnClose(c: nat, exits: seq<Exit>)
    ensures Neutral(ScriptOf(OnClose(c, exits)), 0)
  {
    var a, b, d := OutAllTGroup(c, exits), Section(ClientTable, true, []), Section(ConnTable, true, []);
    NeutralOutAll(c, exits, 1);
    NeutralPlain(ClientTable, true, 1);
    NeutralPlain(ConnTable, true, 1);
    NeutralThen(a, b, 1, {});
    NeutralThen(a + b, d, 1, {});
    NeutralMore(a + b + d, 1, {CloseOnce(c)});
    NeutralSection(CloseOnce(c), true, a + b + d, 0);
  }

  lemma NeutralByTgid(to: Target)
    ensures Neutral(ScriptOf(SendToUserByTgid(to)), 0)
  {
    NeutralNil(0, {});
    NeutralPlain(ClientTable, false, 0);
    if to.Nobody? {
      NeutralThen(GetClient(), [], 0, {});
    } else {
      var look, end := Section(ClientGroups(to.c), false, []), if to.closes then CloseClient(to.c) else [];
      NeutralPlain(ClientGroups(to.c), false, 0);
      NeutralPlain(ClientState(to.c), true, 0);
      NeutralThen(look, end, 0, {});
      NeutralThen(GetClient(), look + end, 0, {});
    }
  }

  lemma NeutralIsDisciplined(block: Script)
    requires Neutral(block, 0)
    ensures Disciplined(map[], block)
  {
    assert Holding(map[], 0, {}) && Disciplined(map[], []);
    assert Disciplined(map[], block + []);
    assert block + [] == block;
  }

  lemma SendIsDisciplined(g: Option<nat>)
    ensures Disciplined(map[], ScriptOf(SendToGroup(g)))
  {
    NeutralPlain(GroupTable, false, 0);
    var k: Script := if g.Some? then [Push(g.value)] else [];
    assert Disciplined(map[], k) && Holding(map[], 0, {});
  }

  /** Every path of every call keeps the discipline. */
  lemma CallIsDisciplined(call: Call)
    ensures Disciplined(map[], ScriptOf(call))
  {
    if call.SendToGroup? {
      SendIsDisciplined(call.g);
    } else {
      match call {
      case InTGroup(c, tries) =>
        NeutralJoin(tries);
        NeutralPlain(ClientGroups(c), true, 0);
        NeutralThen(UserJoinTGroup(tries), Section(ClientGroups(c), true, []), 0, {});
      case OutTGroup(c, exit) =>
        NeutralOut(exit, 0);
        NeutralPlain(ClientGroups(c), true, 0);
        NeutralThen(UserOutTGroup(exit), Section(ClientGroups(c), true, []), 0, {});
      case OutAll(c, exits) => NeutralOutAll(c, exits, 0);
      case ByConn => NeutralPlain(ConnTable, false, 0);
      case Count => NeutralPlain(ClientTable, false, 0);
      case OnConnect =>
        NeutralPlain(ClientTable, true, 0);
        NeutralPlain(ConnTable, true, 0);
        NeutralThen(Section(ClientTable, true, []), Section(ConnTable, true, []), 0, {});
      case OnClose(c, exits) => NeutralOnClose(c, exits);
      case StopClient(to) => NeutralOffer(to, 0);
      case LoopExit(c) => NeutralPlain(ClientState(c), true, 0);
      case SendToUser(to) => NeutralOffer(to, 0);
      case SendToUserByTgid(to) => NeutralByTgid(to);
      }
      NeutralIsDisciplined(ScriptOf(call));
    }
  }

  // ---- what the scripts contain ------------------------------------------------------------

  lemma {:induction false} InSections(blocks: seq<Script>, i: nat)
    requires i < |blocks|
    ensures forall o :: o in blocks[i] ==> o in Sections(blocks)
  {
    if i > 0 { InSections(blocks[1..], i - 1); }
  }

  /** A leave changes the group's users and, if it empties the group, the table of groups, and closes the
      group's channel. */
  ghost predicate LeavesWith(ops: Script, e: Exit) {
    && Touch(GroupTable, false) in ops
    && (e.From? ==> Touch(GroupUsers(e.g), true) in ops)
    && (e.From? && e.empties ==> Touch(GroupTable, true) in ops && CloseChan(e.g) in ops)
  }

  ghost predicate JoinsWith(ops: Script, a: Attempt) {
    && Touch(GroupTable, false) in ops && Touch(GroupUsers(a.g), true) in ops
    && (!a.found ==> Touch(GroupTable, true) in ops)
  }

  ghost predicate OffersWith(ops: Script, to: Target) {
    Touch(ClientTable, false) in ops && (to.Somebody? && to.closes ==> Touch(ClientState(to.c), true) in ops)
  }

  lemma SectionHas(l: LockId, write: bool, body: Script)
    ensures Touch(l, write) in Section(l, write, body) && forall o :: o in body ==> o in Section(l, write, body)
  {
    assert Section(l, write, body)[1] == Touch(l, write);
  }

  lemma LeaveHas(e: Exit)
    ensures LeavesWith(UserOutTGroup(e), e)
  {
    SectionHas(GroupTable, false, []);
    if e.From? {
      SectionHas(GroupTable, true, []);
      SectionHas(GroupUsers(e.g), true, if e.empties then DeleteTGroup(e.g) else []);
    }
  }

  lemma LeaveAllHas(c: nat, exits: seq<Exit>)
    ensures Touch(ClientGroups(c), true) in OutAllTGroup(c, exits)
    ensures forall i :: 0 <= i < |exits| ==> LeavesWith(OutAllTGroup(c, exits), exits[i])
  {
    var blocks := seq(|exits|, i requires 0 <= i < |exits| => OutOne(c, exits[i]));
    SectionHas(ClientGroups(c), true, Sections(blocks));
    forall i | 0 <= i < |exits| ensures LeavesWith(OutAllTGroup(c, exits), exits[i]) {
      LeaveHas(exits[i]);
      InSections(blocks, i);
    }
  }

  lemma JoinHas(tries: seq<Attempt>)
    ensures forall i :: 0 <= i < |tries| ==> JoinsWith(UserJoinTGroup(tries), tries[i])
  {
    var blocks := seq(|tries|, i requires 0 <= i < |tries| => JoinOnce(tries[i]));
    forall i | 0 <= i < |tries| ensures JoinsWith(UserJoinTGroup(tries), tries[i]) {
      SectionHas(GroupTable, false, []);
      SectionHas(GroupTable, true, []);
      SectionHas(GroupUsers(tries[i].g), true, []);
      InSections(blocks, i);
    }
  }

  lemma OfferHas(to: Target)
    ensures OffersWith(OfferTo(to), to)
  {
    SectionHas(ClientTable, false, []);
    if to.Somebody? { SectionHas(ClientState(to.c), true, []); }
  }

  /** A fan-out reads the group's users, and looks up each client and closes those that are full. */
  lemma FanOutHas(g: nat, targets: seq<Target>)
    ensures Touch(GroupUsers(g), false) in SendToUsers(g, targets)
    ensures forall i :: 0 <= i < |targets| ==> OffersWith(SendToUsers(g, targets), targets[i])
  {
    var blocks := seq(|targets|, i requires 0 <= i < |targets| => OfferTo(targets[i]));
    SectionHas(GroupUsers(g), false, Sections(blocks));
    forall i | 0 <= i < |targets| ensures OffersWith(SendToUsers(g, targets), targets[i]) {
      OfferHas(targets[i]);
      InSections(blocks, i);
    }
  }

  /** The script of a call has every access, send and close the call makes. */
  lemma CallHas(call: Call)
    ensures var ops := ScriptOf(call);
      match call
      case InTGroup(c, tries) =>
        Touch(ClientGroups(c), true) in ops && forall i :: 0 <= i < |tries| ==> JoinsWith(ops, tries[i])
      case OutTGroup(c, exit) => Touch(ClientGroups(c), true) in ops && LeavesWith(ops, exit)
      case OutAll(c, exits) =>
        Touch(ClientGroups(c), true) in ops && forall i :: 0 <= i < |exits| ==> LeavesWith(ops, exits[i])
      case OnConnect => Touch(ClientTable, true) in ops && Touch(ConnTable, true) in ops
      case ByConn => Touch(ConnTable, false) in ops
      case Count => Touch(ClientTable, false) in ops
      case OnClose(c, exits) =>
        && Touch(ClientGroups(c), true) in ops && Touch(ClientTable, true) in ops && Touch(ConnTable, true) in ops
        && forall i :: 0 <= i < |exits| ==> LeavesWith(ops, exits[i])
      case StopClient(to) => OffersWith(ops, to)
      case LoopExit(c) => Touch(ClientState(c), true) in ops
      case SendToUser(to) => OffersWith(ops, to)
      case SendToUserByTgid(to) => OffersWith(ops, to) && (to.Somebody? ==> Touch(ClientGroups(to.c), false) in ops)
      case SendToGroup(g) => Touch(GroupTable, false) in ops && (g.Some? ==> Push(g.value) in ops)
  {
    SectionHas(ClientTable, true, []);
    SectionHas(ConnTable, true, []);
    SectionHas(ConnTable, false, []);
    SectionHas(ClientTable, false, []);
    SectionHas(GroupTable, false, []);
    match call
    case InTGroup(c, tries) =>
      JoinHas(tries);
      SectionHas(ClientGroups(c), true, []);
    case OutTGroup(c, exit) =>
      LeaveHas(exit);
      SectionHas(ClientGroups(c), true, []);
    case OutAll(c, exits) => LeaveAllHas(c, exits);
    case OnClose(c, exits) =>
      LeaveAllHas(c, exits);
      SectionHas(CloseOnce(c), true,
        OutAllTGroup(c, exits) + Section(ClientTable, true, []) + Section(ConnTable, true, []));
    case StopClient(to) => OfferHas(to);
    case LoopExit(c) => SectionHas(ClientState(c), true, []);
    case SendToUser(to) => OfferHas(to);
    case SendToUserByTgid(to) =>
      if to.Somebody? {
        SectionHas(ClientGroups(to.c), false, []);
        SectionHas(ClientState(to.c), true, []);
      }
    case _ =>
  }
}
