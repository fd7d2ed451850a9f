/** Peer discovery: a snapshot of the store's keys under the service name, then the events after it. */
module Discovery {
  import opened Types
  import Cluster

  datatype Event = Put(key: string, value: string) | Delete(key: string)

  datatype Kv = Kv(key: string, value: string)

  type Store = map<string, string>

  function After(m: Store, e: Event): Store {
    match e
    case Put(k, v) => m[k := v]
    case Delete(k) => m - {k}
  }

  /** The store after a log of events. */
  function Replay(log: seq<Event>): Store {
    if log == [] then map[] else After(Replay(log[..|log| - 1]), log[|log| - 1])
  }

  predicate Under(service: string, key: string) {
    service <= key
  }

  /** The part of the store a prefix query or watch sees. */
  function Part(m: Store, service: string): Store {
    map k | k in m && Under(service, k) :: m[k]
  }

  /** The watch delivers the events under the prefix, in order. */
  function Seen(log: seq<Event>, service: string): seq<Event> {
    if log == [] then []
    else
      Seen(log[..|log| - 1], service) + if Under(service, log[|log| - 1].key) then [log[|log| - 1]] else []
  }

  /** A listing of m: each key once. */
  ghost predicate Lists(kvs: seq<Kv>, m: Store) {
    && (forall i :: 0 <= i < |kvs| ==> kvs[i].key in m && m[kvs[i].key] == kvs[i].value)
    && (forall k :: k in m ==> HasKey(kvs, k))
  }

  // ---- the peer table ----------------------------------------------------------------------

  /** onRegister: nothing to do if the address is unchanged; a peer that cannot be dialled is left as
      it was. */
  function Registered(m: Store, k: string, v: string, dials: string -> bool): Store {
    if k in m && m[k] == v then m else if dials(v) then m[k := v] else m
  }

  function Noted(m: Store, e: Event, dials: string -> bool): Store {
    match e
    case Put(k, v) => Registered(m, k, v, dials)
    case Delete(k) => m - {k}
  }

  function NotedAll(m: Store, es: seq<Event>, dials: string -> bool): Store {
    if es == [] then m else Noted(NotedAll(m, es[..|es| - 1], dials), es[|es| - 1], dials)
  }

  function Listed(kvs: seq<Kv>, dials: string -> bool): Store {
    if kvs == [] then map[]
    else Registered(Listed(kvs[..|kvs| - 1], dials), kvs[|kvs| - 1].key, kvs[|kvs| - 1].value, dials)
  }

  class Peers {
    const service: string
    var clients: map<string, string>

    constructor (service: string)
      ensures this.service == service && clients == map[]
    {
      this.service, clients := service, map[];
    }

    method OnRegister(key: string, addr: string, dials: string -> bool)
      modifies this
      ensures clients == Registered(old(clients), key, addr, dials)
    {
      if key in clients {
        if clients[key] == addr {
          return;
        }
      }
      if !dials(addr) {
        return;
      }
      clients := clients[key := addr];
    }

    method OnUnregister(key: string)
      modifies this
      ensures clients == old(clients) - {key}
    {
      clients := clients - {key};
    }

    /** WatchService: the snapshot first, then every later event. */
    method WatchService(kvs: seq<Kv>, events: seq<Event>, dials: string -> bool)
      requires clients == map[]
      modifies this
      ensures clients == NotedAll(Listed(kvs, dials), events, dials)
    {
      for i := 0 to |kvs|
        invariant clients == Listed(kvs[..i], dials)
      {
        assert kvs[..i + 1][..i] == kvs[..i];
        OnRegister(kvs[i].key, kvs[i].value, dials);
      }
      assert kvs[..|kvs|] == kvs;
      for i := 0 to |events|
        invariant clients == NotedAll(Listed(kvs, dials), events[..i], dials)
      {
        assert events[..i + 1][..i] == events[..i];
        match events[i]
        case Put(k, v) => OnRegister(k, v, dials);
        case Delete(k) => OnUnregister(k);
      }
      assert events[..|events|] == events;
    }
  }

  /** The address of the peer filed under service name + address. */
  function Lookup(m: Store, service: string, addr: string): Option<string> {
    if service + addr in m then Some(m[service + addr]) else None
  }

  // ---- agreement with the store ------------------------------------------------------------

  predicate HasKey(kvs: seq<Kv>, k: string) {
    exists i :: 0 <= i < |kvs| && kvs[i].key == k
  }

  lemma OneMoreKey(kvs: seq<Kv>, k: string)
    requires kvs != []
    ensures HasKey(kvs, k) <==> HasKey(kvs[..|kvs| - 1], k) || k == kvs[|kvs| - 1].key
  {
    var init := kvs[..|kvs| - 1];
    if HasKey(init, k) {
      var i :| 0 <= i < |init| && init[i].key == k;
      assert kvs[i].key == k;
    }
    if HasKey(kvs, k) && k != kvs[|kvs| - 1].key {
      var i :| 0 <= i < |kvs| && kvs[i].key == k;
      assert init[i].key == k;
    }
  }

  lemma {:induction false} ListedIsStore(kvs: seq<Kv>, m: Store, dials: string -> bool)
    requires forall i :: 0 <= i < |kvs| ==> kvs[i].key in m && m[kvs[i].key] == kvs[i].value && dials(kvs[i].value)
    ensures Listed(kvs, dials) == map k | k in m && HasKey(kvs, k) :: m[k]
  {
    if kvs != [] {
      var init := kvs[..|kvs| - 1];
      assert forall i :: 0 <= i < |init| ==> init[i] == kvs[i];
      ListedIsStore(init, m, dials);
      forall k | k in m ensures HasKey(kvs, k) <==> HasKey(init, k) || k == kvs[|kvs| - 1].key { OneMoreKey(kvs, k); }
    }
  }

  lemma SnapshotIsPart(kvs: seq<Kv>, m: Store, service: string, dials: string -> bool)
    requires Lists(kvs, Part(m, service)) && (forall k :: k in m && Under(service, k) ==> dials(m[k]))
    ensures Listed(kvs, dials) == Part(m, service)
  {
    ListedIsStore(kvs, Part(m, service), dials);
  }

  /** Every address ever put under the prefix can be dialled. */
  ghost predicate AllDial(log: seq<Event>, service: string, dials: string -> bool) {
    forall i :: 0 <= i < |log| && log[i].Put? && Under(service, log[i].key) ==> dials(log[i].value)
  }

  lemma {:induction false} StoreDials(log: seq<Event>, service: string, dials: string -> bool)
    requires AllDial(log, service, dials)
    ensures forall k :: k in Replay(log) && Under(service, k) ==> dials(Replay(log)[k])
  {
    if log != [] {
      var init := log[..|log| - 1];
      assert AllDial(init, service, dials) by { assert forall i :: 0 <= i < |init| ==> init[i] == log[i]; }
      StoreDials(init, service, dials);
    }
  }

  lemma PartAfter(m: Store, e: Event, service: string, dials: string -> bool)
    requires e.Put? && Under(service, e.key) ==> dials(e.value)
    ensures Part(After(m, e), service) ==
      if Under(service, e.key) then Noted(Part(m, service), e, dials) else Part(m, service)
  {
  }

  /** Following the watch keeps up with the store. */
  lemma {:induction false} WatchKeepsUp(before: seq<Event>, later: seq<Event>, service: string, dials: string -> bool)
    requires AllDial(later, service, dials)
    ensures NotedAll(Part(Replay(before), service), Seen(later, service), dials) ==
      Part(Replay(before + later), service)
    decreases |later|
  {
    if later == [] {
      assert before + later == before;
    } else {
      var init, e := later[..|later| - 1], later[|later| - 1];
      assert AllDial(init, service, dials) by { assert forall i :: 0 <= i < |init| ==> init[i] == later[i]; }
      WatchKeepsUp(before, init, service, dials);
      assert (before + later)[..|before + later| - 1] == before + init;
      PartAfter(Replay(before + init), e, service, dials);
      assert Replay(before + later) == After(Replay(before + init), e);
      if Under(service, e.key) {
        assert Seen(later, service) == Seen(init, service) + [e];
        assert Seen(later, service)[..|Seen(later, service)| - 1] == Seen(init, service);
      } else {
        assert Seen(later, service) == Seen(init, service);
      }
    }
  }

  /** For every log and every revision R of it: a snapshot at R, listed in any order, then the events
      from R + 1, give the peer table that replaying the whole log gives. */
  lemma DiscoveryAgrees(log: seq<Event>, R: nat, kvs: seq<Kv>, service: string, dials: string -> bool)
    requires R <= |log| && AllDial(log, service, dials) && Lists(kvs, Part(Replay(log[..R]), service))
    ensures NotedAll(Listed(kvs, dials), Seen(log[R..], service), dials) == Part(Replay(log), service)
  {
    assert AllDial(log[..R], service, dials) by { assert forall i :: 0 <= i < R ==> log[..R][i] == log[i]; }
    assert AllDial(log[R..], service, dials) by { assert forall i :: 0 <= i < |log| - R ==> log[R..][i] == log[R + i]; }
    StoreDials(log[..R], service, dials);
    SnapshotIsPart(kvs, Replay(log[..R]), service, dials);
    WatchKeepsUp(log[..R], log[R..], service, dials);
    assert log[..R] + log[R..] == log;
  }

  /** What routing needs of the peer tables: if every node has registered its address under service
      name + address, and every node's watch has kept up with the store, then every node reaches
      every other. */
  lemma PeersAreRight(c: Cluster.ClusterState, store: Store)
    requires forall n :: n in c.nodes ==>
      c.service + Cluster.AddrOf(n) in store && store[c.service + Cluster.AddrOf(n)] == Cluster.AddrOf(n)
    requires forall from :: from in c.nodes ==> from in c.peers && c.peers[from] == Part(store, c.service)
    requires forall a, b :: a in c.nodes && b in c.nodes && Cluster.AddrOf(a) == Cluster.AddrOf(b) ==> a == b
    requires forall a, b :: a in c.nodes && b in c.nodes && a.ip == b.ip && a.wsPort == b.wsPort ==> a == b
    ensures Cluster.PeersRight(c)
  {
  }

  /** A put leaves the table with the new address exactly when it can be dialled or is there already; if
      it cannot be dialled the table is as it was; no other entry changes in any case. */
  lemma PutIsNotedIff(m: Store, k: string, v: string, dials: string -> bool)
    ensures var r := Registered(m, k, v, dials); (k in r && r[k] == v) <==> dials(v) || (k in m && m[k] == v)
    ensures !dials(v) ==> Registered(m, k, v, dials) == m
    ensures forall j :: j != k ==>
      (j in Registered(m, k, v, dials) <==> j in m) && (j in m ==> Registered(m, k, v, dials)[j] == m[j])
  {
  }

  /** A server registers its address under its service name + its address. */
  datatype Registration = Registration(name: string, addr: string)

  function KeyOf(r: Registration): string {
    r.name + r.addr
  }

  /** The store holds exactly these registrations, of whatever services share it. */
  ghost predicate HoldsExactly(m: Store, regs: set<Registration>) {
    && (forall r :: r in regs ==> KeyOf(r) in m && m[KeyOf(r)] == r.addr)
    && (forall k :: k in m ==> exists r :: r in regs && KeyOf(r) == k)
  }

  ghost predicate NeverMisleads(m: Store, service: string) {
    forall addr :: Lookup(m, service, addr).Some? ==> Lookup(m, service, addr).value == addr
  }

  lemma RightLookupNeedsOwnName(m: Store, service: string, r: Registration)
    requires KeyOf(r) in m && m[KeyOf(r)] == r.addr && Under(service, KeyOf(r)) &&
      NeverMisleads(Part(m, service), service)
    ensures r.name == service
  {
    var k := KeyOf(r);
    var addr := k[|service|..];
    assert k == service + addr;
    assert Lookup(Part(m, service), service, addr).Some?;
    assert r.addr == addr && |r.name| == |service|;
    assert k[..|service|] == r.name;
  }

  lemma OwnNameLooksUpRight(m: Store, service: string, r: Registration, addr: string)
    requires KeyOf(r) in m && m[KeyOf(r)] == r.addr && r.name == service && KeyOf(r) == service + addr
    ensures Lookup(Part(m, service), service, addr) == Some(addr)
  {
    assert KeyOf(r)[|service|..] == r.addr && (service + addr)[|service|..] == addr;
  }

  /** With the store shared by any services: lookup never answers with a peer at another address if
      and only if every registration whose key starts with this service's name is of this service. */
  lemma LookupIsRight(m: Store, regs: set<Registration>, service: string)
    requires HoldsExactly(m, regs)
    ensures NeverMisleads(Part(m, service), service) <==>
            forall r :: r in regs && Under(service, KeyOf(r)) ==> r.name == service
  {
    if NeverMisleads(Part(m, service), service) {
      forall r | r in regs && Under(service, KeyOf(r)) ensures r.name == service {
        RightLookupNeedsOwnName(m, service, r);
      }
    } else {
      var addr :| Lookup(Part(m, service), service, addr).Some? &&
        Lookup(Part(m, service), service, addr).value != addr;
      var r :| r in regs && KeyOf(r) == service + addr;
      if r.name == service { OwnNameLooksUpRight(m, service, r, addr); }
    }
  }

  /** A service whose name extends this one's shares the prefix; its peers are found under wrong addresses. */
  lemma LongerNameCollides()
    ensures var m := Replay([Put("im" + "2" + "1.1.1.1:80", "1.1.1.1:80")]);
      Lookup(Part(m, "im"), "im", "21.1.1.1:80") == Some("1.1.1.1:80")
  {
    var k := "im" + "2" + "1.1.1.1:80";
    var log := [Put(k, "1.1.1.1:80")];
    assert log[..0] == [];
    assert Replay(log) == map[k := "1.1.1.1:80"];
    assert k == "im" + "21.1.1.1:80";
  }
}
