/** Published group messages handled by each node in its own time, interleaved with everything else:
    joins, leaves, connects, disconnects, other messages, queues being drained. */
module Interleaving {
  import opened Types
  import opened NodeSpec
  import opened Cluster
  import opened Broadcast

  datatype Done = Done(n: NodeId, k: nat)

  /** The cluster, what has been published so far, and which node has handled what. */
  datatype State = State(c: ClusterState, published: seq<SubMsg>, handled: set<Done>)

  datatype Label =
    | Publish(sub: SubMsg)
    | HandleAt(n: NodeId, k: nat)
    | Other(c: ClusterState)          // any other change, to whatever cluster

  predicate Enabled(s: State, l: Label) {
    match l
    case Publish(_) => true
    case HandleAt(n, k) => n in s.c.nodes && k < |s.published| && Done(n, k) !in s.handled
    case Other(_) => true
  }

  ghost function Apply(s: State, enc: Encoder, l: Label): State
    requires Enabled(s, l)
  {
    match l
    case Publish(sub) => s.(published := s.published + [sub])
    case HandleAt(n, k) => s.(c := Handle(s.c, n, enc, s.published[k]), handled := s.handled + {Done(n, k)})
    case Other(c) => s.(c := c)
  }

  ghost predicate Follows(s: State, s': State, enc: Encoder, l: Label) {
    Enabled(s, l) && s' == Apply(s, enc, l)
  }

  ghost predicate IsRun(ss: seq<State>, enc: Encoder, ls: seq<Label>) {
    && |ss| == |ls| + 1 && ss[0].handled == {}
    && forall i: nat :: i < |ls| ==> Follows(ss[i], ss[i + 1], enc, ls[i])
  }

  /** User u is connected to node n and in the group. */
  predicate Joined(s: State, n: NodeId, u: Uid, gid: Gid) {
    Connected(s, n, u) && u in MembersOf(s.c.nodes[n].table, gid)
  }

  predicate Connected(s: State, n: NodeId, u: Uid) {
    n in s.c.nodes && u in s.c.nodes[n].clients
  }

  /** Step i offers message m to the client of user u on node n. */
  predicate OfferedAt(ss: seq<State>, i: nat, n: NodeId, u: Uid, m: Bytes) {
    && i + 1 < |ss| && Connected(ss[i], n, u) && Connected(ss[i + 1], n, u)
    && ss[i + 1].c.nodes[n].clients[u] == Offer(ss[i].c.nodes[n].clients[u], ss[i].c.nodes[n].cap, m)
  }

  predicate UntouchedAt(ss: seq<State>, i: nat, n: NodeId, u: Uid) {
    && i + 1 < |ss| && Connected(ss[i], n, u) && Connected(ss[i + 1], n, u)
    && ss[i + 1].c.nodes[n].clients[u] == ss[i].c.nodes[n].clients[u]
  }

  /** Handling a group message on a node offers it to the node's members of the group at that moment,
      but for the excluded one, and changes no other client anywhere. */
  lemma HandleOffers(c: ClusterState, at: NodeId, enc: Encoder, gid: Gid, rd: ResponseData, ex: Uid, n: NodeId, u: Uid)
    requires at in c.nodes && gid != "" && n in c.nodes && u in c.nodes[n].clients
    ensures var c' := Handle(c, at, enc, Published(gid, rd, ex));
      && c'.nodes.Keys == c.nodes.Keys && c'.nodes[n].clients.Keys == c.nodes[n].clients.Keys
      && c'.nodes[n].clients[u] ==
         if n == at && u in MembersOf(c.nodes[n].table, gid) && u != ex
         then Offer(c.nodes[n].clients[u], c.nodes[n].cap, GroupPayload(enc, NewResponseData(rd.a), ex).msg)
         else c.nodes[n].clients[u]
  {
    HandleIsLocal(c, at, enc, Published(gid, rd, ex));
    OneTarget(c.nodes[at], enc, gid, rd, ex);
  }

  lemma StepGrows(s: State, s': State, enc: Encoder, l: Label)
    requires Follows(s, s', enc, l)
    ensures s.published <= s'.published && s.handled <= s'.handled
    ensures forall d :: d in s'.handled && d !in s.handled ==> l == HandleAt(d.n, d.k) && d.k < |s.published|
  {
  }

  lemma {:induction false} RunGrows(ss: seq<State>, enc: Encoder, ls: seq<Label>, i: nat, j: nat)
    requires IsRun(ss, enc, ls) && i <= j < |ss|
    ensures ss[i].published <= ss[j].published && ss[i].handled <= ss[j].handled
    decreases j - i
  {
    if i < j {
      RunGrows(ss, enc, ls, i, j - 1);
      assert Follows(ss[j - 1], ss[j - 1 + 1], enc, ls[j - 1]);
      StepGrows(ss[j - 1], ss[j], enc, ls[j - 1]);
    }
  }

  lemma {:induction false} HandledMeansPublished(ss: seq<State>, enc: Encoder, ls: seq<Label>, i: nat, d: Done)
    requires IsRun(ss, enc, ls) && i < |ss| && d in ss[i].handled
    ensures d.k < |ss[i].published|
  {
    assert i > 0;
    assert Follows(ss[i - 1], ss[i - 1 + 1], enc, ls[i - 1]);
    StepGrows(ss[i - 1], ss[i], enc, ls[i - 1]);
    if d in ss[i - 1].handled { HandledMeansPublished(ss, enc, ls, i - 1, d); }
  }

  /** What a node has handled by now and had not by then, it handled at some step between. */
  lemma {:induction false} HandledWhen(
    ss: seq<State>, enc: Encoder, ls: seq<Label>, p: nat, q: nat, d: Done) returns (i: nat)
    requires IsRun(ss, enc, ls) && p <= q < |ss| && d !in ss[p].handled && d in ss[q].handled
    ensures p <= i < q && ls[i] == HandleAt(d.n, d.k)
    decreases q - p
  {
    assert Follows(ss[q - 1], ss[q - 1 + 1], enc, ls[q - 1]);
    StepGrows(ss[q - 1], ss[q], enc, ls[q - 1]);
    if d in ss[q - 1].handled { i := HandledWhen(ss, enc, ls, p, q - 1, d); } else { i := q - 1; }
  }

  /** A node handles a message once. */
  lemma HandledOnce(ss: seq<State>, enc: Encoder, ls: seq<Label>, i: nat, j: nat)
    requires IsRun(ss, enc, ls) && i < j < |ls| && ls[i].HandleAt?
    ensures ls[j] != ls[i]
  {
    assert Follows(ss[i], ss[i + 1], enc, ls[i]) && Follows(ss[j], ss[j + 1], enc, ls[j]);
    RunGrows(ss, enc, ls, i + 1, j);
  }

  /** The handling of message k at step i, seen by a member of its group. */
  lemma StepOffers(
    ss: seq<State>, enc: Encoder, ls: seq<Label>, i: nat, n: NodeId, u: Uid, gid: Gid, k: nat,
    rd: ResponseData, ex: Uid)
    requires IsRun(ss, enc, ls) && i < |ls| && gid != "" && u != ex && ls[i].HandleAt? && ls[i].k == k
    requires k < |ss[i].published| && ss[i].published[k] == Published(gid, rd, ex)
    requires Joined(ss[i], n, u, gid) && Joined(ss[i + 1], n, u, gid)
    ensures ls[i].n == n ==> OfferedAt(ss, i, n, u, GroupPayload(enc, NewResponseData(rd.a), ex).msg)
    ensures ls[i].n != n ==> UntouchedAt(ss, i, n, u)
  {
    assert Follows(ss[i], ss[i + 1], enc, ls[i]);
    HandleOffers(ss[i].c, ls[i].n, enc, gid, rd, ex, n, u);
  }

  /** A message published to a group while user u is connected to node n and in the group, and stays so
      until node n has handled it: whatever happens in between, there is exactly one step at which
      handling that message offers it to u, with the payload published; no other handling of it, on
      any node, touches u. */
  lemma EachMessageOnce(
    ss: seq<State>, enc: Encoder, ls: seq<Label>, p: nat, q: nat, n: NodeId, u: Uid, gid: Gid,
    rd: ResponseData, ex: Uid)
    returns (i: nat)
    requires IsRun(ss, enc, ls) && p < q < |ss| && gid != "" && u != ex
    requires ls[p] == Publish(Published(gid, rd, ex))
    requires forall j: nat :: p <= j <= q ==> Joined(ss[j], n, u, gid)
    requires Done(n, |ss[p].published|) in ss[q].handled
    ensures p < i < q && OfferedAt(ss, i, n, u, GroupPayload(enc, NewResponseData(rd.a), ex).msg)
    ensures forall j: nat :: p <= j < q ==>
      ls[j].HandleAt? && ls[j].k == |ss[p].published| && j != i ==> UntouchedAt(ss, j, n, u)
    ensures ls[i] == HandleAt(n, |ss[p].published|)
  {
    var k := |ss[p].published|;
    if Done(n, k) in ss[p].handled { HandledMeansPublished(ss, enc, ls, p, Done(n, k)); }
    i := HandledWhen(ss, enc, ls, p, q, Done(n, k));
    forall j: nat | p <= j < q && ls[j].HandleAt? && ls[j].k == k
      ensures ls[j].n == n ==> j == i && OfferedAt(ss, j, n, u, GroupPayload(enc, NewResponseData(rd.a), ex).msg)
      ensures ls[j].n != n ==> UntouchedAt(ss, j, n, u)
    {
      StillPublished(ss, enc, ls, p, j, rd, ex, gid);
      StepOffers(ss, enc, ls, j, n, u, gid, k, rd, ex);
      if ls[j].n == n && j < i { HandledOnce(ss, enc, ls, j, i); }
      if ls[j].n == n && i < j { HandledOnce(ss, enc, ls, i, j); }
    }
  }

  /** The message stays what was published at step p. */
  lemma StillPublished(
    ss: seq<State>, enc: Encoder, ls: seq<Label>, p: nat, j: nat, rd: ResponseData, ex: Uid, gid: Gid)
    requires IsRun(ss, enc, ls) && p <= j < |ls| && ls[p] == Publish(Published(gid, rd, ex))
    requires ls[j].HandleAt? && ls[j].k == |ss[p].published|
    ensures p < j && |ss[p].published| < |ss[j].published|
    ensures ss[j].published[|ss[p].published|] == Published(gid, rd, ex)
  {
    assert Follows(ss[p], ss[p + 1], enc, ls[p]);
    RunGrows(ss, enc, ls, p + 1, j);
  }
}
