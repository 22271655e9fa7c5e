/** What the provenance rule achieves, over every run of every network. */
module Provenance {
  import opened Options
  import opened SocketServer
  import opened Network

  // ---------- provenance is honest ----------

  /** Read off a provenance: origin first, then distinct engines joined by edges that admit the message. */
  predicate TellsTheTruth(g: Graph, o: Origin, p: seq<Id>) {
    var n := |o.before|;
    && |p| > n && p[..n] == o.before && p[n] == o.at
    && (forall k :: n < k < |p| ==> Edge(g, o.device, p[k - 1], p[k]))
    && (forall i, j :: n <= i < j < |p| ==> p[i] != p[j])
  }

  lemma TruthExtends(g: Graph, o: Origin, q: seq<Id>, v: Id)
    requires TellsTheTruth(g, o, q) && Edge(g, o.device, q[|q| - 1], v) && v !in q
    ensures TellsTheTruth(g, o, q + [v])
  {
  }

  lemma {:induction false} RouteTellsTheTruth(g: Graph, o: Origin, p: seq<Id>)
    requires IsRoute(g, o, p)
    ensures TellsTheTruth(g, o, p)
    decreases |p|
  {
    if |p| <= |o.before| + 1 {
    } else {
      var q := p[..|p| - 1];
      RouteTellsTheTruth(g, o, q);
      TruthExtends(g, o, q, p[|p| - 1]);
      assert p == q + [p[|p| - 1]];
    }
  }

  lemma {:induction false} TruthIsRoute(g: Graph, o: Origin, p: seq<Id>)
    requires TellsTheTruth(g, o, p) && WellFormedGraph(g) && WellFormedOrigin(g, o)
    ensures IsRoute(g, o, p)
    decreases |p|
  {
    var n := |o.before|;
    if |p| == n + 1 {
      assert p == p[..n] + [p[n]];
    } else {
      var q, v := p[..|p| - 1], p[|p| - 1];
      assert q[..n] == p[..n];
      assert Edge(g, o.device, p[|p| - 2], p[|p| - 1]);
      TruthIsRoute(g, o, q);
      assert forall i :: 0 <= i < n ==> q[i] == o.before[i] && o.before[i] in o.before;
    }
  }

  /**
   What has been broadcast, and what is in flight, carries a provenance that names its origin first and
   then distinct engines along real subscriptions. A copy that carries no engine yet is a reply on its way
   to the engine that will broadcast it first.
   */
  ghost predicate AllTellTheTruth(g: Graph, s: Net) {
    && (forall e :: e in s.log ==> e.tag < |s.origins| && TellsTheTruth(g, s.origins[e.tag], e.provenance))
    && (forall c :: c in s.flying ==>
          && c.tag < |s.origins|
          && (IsRoot(s.origins[c.tag], c)
              || (TellsTheTruth(g, s.origins[c.tag], c.provenance)
                  && Edge(g, s.origins[c.tag].device, c.provenance[|c.provenance| - 1], c.to))))
  }

  lemma LogTellsTheTruth(g: Graph, s: Net)
    requires LogOk(g, s) && FlyingOk(g, s)
    ensures AllTellTheTruth(g, s)
  {
    forall e | e in s.log
      ensures e.tag < |s.origins| && TellsTheTruth(g, s.origins[e.tag], e.provenance)
    {
      RouteTellsTheTruth(g, s.origins[e.tag], e.provenance);
    }
    forall c | c in s.flying
      ensures && c.tag < |s.origins|
              && (IsRoot(s.origins[c.tag], c)
                  || (TellsTheTruth(g, s.origins[c.tag], c.provenance)
                      && Edge(g, s.origins[c.tag].device, c.provenance[|c.provenance| - 1], c.to)))
    {
      assert CopyOk(g, s, c);
      if !IsRoot(s.origins[c.tag], c) {
        assert Entry(c.tag, c.provenance) in s.log;
        RouteTellsTheTruth(g, s.origins[c.tag], c.provenance);
      }
    }
  }

  /** Provenance is honest in every reachable state, on every graph. */
  lemma {:induction false} ProvenanceIsHonest(g: Graph, steps: seq<Step>)
    requires WellFormedGraph(g)
    ensures AllTellTheTruth(g, Run(g, steps))
  {
    RunIsHonest(g, steps);
    LogTellsTheTruth(g, Run(g, steps));
  }

  lemma PublishAlone(g: Graph, o: Origin)
    requires WellFormedOrigin(g, o)
    ensures Run(g, [Publish(o)]).origins == [o] && Entry(0, o.before + [o.at]) in Run(g, [Publish(o)]).log
  {
    assert [Publish(o)][..0] == [] && [] + [o] == [o];
  }

  /** If a broadcast has been made, its continuation along an edge has been, or is one delivery away. */
  lemma OneMoreHop(g: Graph, steps: seq<Step>, o: Origin, q: seq<Id>, v: Id) returns (more: seq<Step>)
    requires WellFormedGraph(g) && Run(g, steps).origins == [o] && Entry(0, q) in Run(g, steps).log
    requires q != [] && Edge(g, o.device, q[|q| - 1], v) && v !in q
    ensures Run(g, more).origins == [o] && Entry(0, q + [v]) in Run(g, more).log
  {
    var s := Run(g, steps);
    RunIsHonest(g, steps);
    assert Answered(s, Entry(0, q), v);
    if Entry(0, q + [v]) in s.log {
      more := steps;
    } else {
      var i :| 0 <= i < |s.flying| && s.flying[i] == Copy(0, q, v);
      more := steps + [Deliver(i)];
      assert more[..|steps|] == steps;
    }
  }

  /** A run on which a given route is broadcast: each copy along it is delivered as soon as it is there. */
  lemma {:induction false} RunAlong(g: Graph, o: Origin, p: seq<Id>) returns (steps: seq<Step>)
    requires WellFormedGraph(g) && WellFormedOrigin(g, o) && IsRoute(g, o, p)
    ensures Run(g, steps).origins == [o] && Entry(0, p) in Run(g, steps).log
    decreases |p|
  {
    if |p| <= |o.before| + 1 {
      PublishAlone(g, o);
      steps := [Publish(o)];
    } else {
      var q, v := p[..|p| - 1], p[|p| - 1];
      steps := RunAlong(g, o, q);
      RouteLength(g, o, q);
      steps := OneMoreHop(g, steps, o, q, v);
      assert q + [v] == p;
    }
  }

  /** Every honest provenance is one that the protocol produces: some run broadcasts it. */
  lemma {:induction false} HonestIsProduced(g: Graph, o: Origin, p: seq<Id>)
    requires TellsTheTruth(g, o, p) && WellFormedGraph(g) && WellFormedOrigin(g, o)
    ensures exists steps :: Run(g, steps).origins == [o] && Entry(0, p) in Run(g, steps).log
  {
    TruthIsRoute(g, o, p);
    var steps := RunAlong(g, o, p);
  }

  // ---------- the network quiesces ----------

  /** How many deliveries one copy can cause, when `missing` engines are not in its provenance. */
  function Weight(links: nat, missing: nat): nat {
    if missing == 0 then 1 else 1 + links * Weight(links, missing - 1)
  }

  function Missing(g: Graph, p: seq<Id>): set<Id> {
    set x | x in g.engines && x !in p
  }

  function Measure(g: Graph, flying: seq<Copy>): nat {
    if |flying| == 0 then 0 else Weight(|g.links|, |Missing(g, flying[0].provenance)|) + Measure(g, flying[1..])
  }

  lemma {:induction false} MeasureAppend(g: Graph, a: seq<Copy>, b: seq<Copy>)
    ensures Measure(g, a + b) == Measure(g, a) + Measure(g, b)
  {
    if |a| == 0 {
      assert a + b == b;
    } else {
      assert (a + b)[1..] == a[1..] + b;
      MeasureAppend(g, a[1..], b);
    }
  }

  lemma MeasureRemove(g: Graph, s: seq<Copy>, i: nat)
    requires i < |s|
    ensures Measure(g, s) == Measure(g, Remove(s, i)) + Weight(|g.links|, |Missing(g, s[i].provenance)|)
  {
    var a, rest, b := s[..i], s[i..], s[i + 1..];
    assert a + rest == s && rest[0] == s[i] && rest[1..] == b;
    MeasureAppend(g, a, rest);
    MeasureAppend(g, a, b);
  }

  lemma OneMoreTime(n: nat, w: nat)
    ensures w + n * w == (n + 1) * w
  {
  }

  lemma {:induction false} MeasureOfEqualCopies(g: Graph, copies: seq<Copy>, p: seq<Id>)
    requires forall c :: c in copies ==> c.provenance == p
    ensures Measure(g, copies) == |copies| * Weight(|g.links|, |Missing(g, p)|)
  {
    if |copies| == 0 {
    } else {
      MeasureOfEqualCopies(g, copies[1..], p);
      OneMoreTime(|copies| - 1, Weight(|g.links|, |Missing(g, p)|));
    }
  }

  lemma MissingShrinks(g: Graph, p: seq<Id>, v: Id)
    requires v in g.engines && v !in p
    ensures |Missing(g, p + [v])| == |Missing(g, p)| - 1
  {
    assert Missing(g, p + [v]) == Missing(g, p) - {v};
  }

  /** What a copy that is passed on turns into weighs less than the copy. */
  lemma ForwardingWeighsLess(g: Graph, links: seq<Link>, c: Copy, device: Device)
    requires c.to in g.engines && c.to !in c.provenance && |links| <= |g.links|
    ensures var out := Fanout(links, c.to, device, c.tag, c.provenance + [c.to]);
            Measure(g, out) < Weight(|g.links|, |Missing(g, c.provenance)|)
  {
    var p := c.provenance + [c.to];
    var out := Fanout(links, c.to, device, c.tag, p);
    FanoutFacts(links, c.to, device, c.tag, p);
    MissingShrinks(g, c.provenance, c.to);
    MeasureOfEqualCopies(g, out, p);
    MultiplyBound(|out|, |g.links|, Weight(|g.links|, |Missing(g, p)|));
  }

  lemma WeightIsPositive(links: nat, missing: nat)
    ensures Weight(links, missing) > 0
  {
  }

  /** Every delivery makes the measure smaller, whatever the graph, and whatever links are left of it. */
  lemma DeliveryDecreases(g: Graph, now: Graph, s: Net, i: nat)
    requires FlyingOk(g, s) && i < |s.flying| && s.flying[i].tag < |s.origins| && |now.links| <= |g.links|
    ensures Measure(g, Delivered(now, s, i).flying) < Measure(g, s.flying)
  {
    var c := s.flying[i];
    MeasureRemove(g, s.flying, i);
    WeightIsPositive(|g.links|, |Missing(g, c.provenance)|);
    if c.to !in c.provenance {
      assert c in s.flying && CopyOk(g, s, c);
      var device := s.origins[c.tag].device;
      ForwardingWeighsLess(g, now.links, c, device);
      MeasureAppend(g, Remove(s.flying, i), Fanout(now.links, c.to, device, c.tag, c.provenance + [c.to]));
    }
  }

  lemma MultiplyBound(a: nat, b: nat, w: nat)
    requires a <= b
    ensures a * w <= b * w
  {
  }

  /** Deliveries and nothing else, each of a copy that is there. */
  ghost predicate OnlyDeliveries(g: Graph, s: Net, indices: seq<nat>)
    decreases |indices|
  {
    |indices| > 0 ==>
      && indices[0] < |s.flying|
      && OnlyDeliveries(g, After(g, s, Deliver(indices[0])), indices[1..])
  }

  /**
   The network quiesces: from any reachable state, with nothing new published, no more deliveries can
   happen than the measure says.
   */
  lemma {:induction false} Quiesces(g: Graph, s: Net, indices: seq<nat>)
    requires WellFormedGraph(g) && Honest(g, s) && OnlyDeliveries(g, s, indices)
    ensures |indices| <= Measure(g, s.flying)
    decreases |indices|
  {
    if |indices| == 0 {
    } else {
      var i := indices[0];
      DeliverKeepsHonest(g, s, i);
      DeliveryDecreases(g, g, s, i);
      Quiesces(g, After(g, s, Deliver(i)), indices[1..]);
    }
  }

  lemma PublishedWeight(g: Graph, s: Net, o: Origin)
    requires s.flying == [] && WellFormedOrigin(g, o)
    ensures Measure(g, After(g, s, Publish(o)).flying) <= |g.links| * Weight(|g.links|, |g.engines| - 1)
  {
    var p := o.before + [o.at];
    var out := Fanout(g.links, o.at, o.device, |s.origins|, p);
    FanoutFacts(g.links, o.at, o.device, |s.origins|, p);
    assert [] + out == out;
    assert Missing(g, p) == g.engines - {o.at};
    MeasureOfEqualCopies(g, out, p);
    MultiplyBound(|out|, |g.links|, Weight(|g.links|, |g.engines| - 1));
  }

  /**
   After one broadcast into a quiet network, at most so many deliveries can follow, in any order, as the
   size of the graph alone says.
   */
  lemma {:induction false} PublishingIsBounded(g: Graph, s: Net, o: Origin, indices: seq<nat>)
    requires WellFormedGraph(g) && Honest(g, s) && s.flying == [] && WellFormedOrigin(g, o)
    requires OnlyDeliveries(g, After(g, s, Publish(o)), indices)
    ensures |indices| <= |g.links| * Weight(|g.links|, |g.engines| - 1)
  {
    LaunchKeepsHonest(g, s, o);
    PublishIsLaunchAndDeliver(g, s, o);
    DeliverKeepsHonest(g, Launched(s, o), |s.flying|);
    Quiesces(g, After(g, s, Publish(o)), indices);
    PublishedWeight(g, s, o);
  }

  // ---------- exactly one copy per simple path ----------

  /** Nothing in flight has been passed on already, and nothing is there twice. */
  ghost predicate Unrepeated(s: Net) {
    && NoDuplicates(s.flying) && NoDuplicates(s.log)
    && (forall c :: c in s.flying ==> Entry(c.tag, c.provenance + [c.to]) !in s.log)
  }

  lemma LaunchKeepsUnrepeated(g: Graph, s: Net, o: Origin)
    requires Honest(g, s) && Unrepeated(s)
    ensures Unrepeated(Launched(s, o))
  {
  }

  lemma DeliverKeepsUnrepeated(g: Graph, s: Net, i: nat)
    requires WellFormedGraph(g) && SimpleLinks(g.links) && Honest(g, s) && Unrepeated(s) && i < |s.flying|
    ensures s.flying[i].tag < |s.origins| && Unrepeated(Delivered(g, s, i))
  {
    var c := s.flying[i];
    assert c in s.flying && CopyOk(g, s, c);
    RemoveFacts(s.flying, i);
    if c.to !in c.provenance {
      var p := c.provenance + [c.to];
      var rest := Remove(s.flying, i);
      var out := Fanout(g.links, c.to, s.origins[c.tag].device, c.tag, p);
      FanoutIsEdges(g, c.to, s.origins[c.tag].device, c.tag, p);
      ForwardedIsRoute(g, s, c);
      forall x | x in rest
        ensures x !in out && Entry(x.tag, x.provenance + [x.to]) != Entry(c.tag, p)
      {
        assert CopyOk(g, s, x);
        DistinctExtensions(x, c);
      }
      AppendNoDuplicates(rest, out);
      AppendNoDuplicates(s.log, [Entry(c.tag, p)]);
      forall x | x in out
        ensures Entry(x.tag, x.provenance + [x.to]) !in s.log && x.provenance + [x.to] != p
      {
        var q := p + [x.to];
        assert q[..|q| - 1] == p && Entry(c.tag, q).tag < |s.origins|;
      }
    }
  }

  lemma DistinctExtensions(a: Copy, b: Copy)
    requires a != b
    ensures Entry(a.tag, a.provenance + [a.to]) != Entry(b.tag, b.provenance + [b.to])
  {
    var p, q := a.provenance + [a.to], b.provenance + [b.to];
    assert a.provenance == p[..|p| - 1] && b.provenance == q[..|q| - 1];
    assert a.to == p[|p| - 1] && b.to == q[|q| - 1];
  }

  lemma {:induction false} RunIsUnrepeated(g: Graph, steps: seq<Step>)
    requires WellFormedGraph(g) && SimpleLinks(g.links)
    ensures Unrepeated(Run(g, steps))
  {
    if |steps| == 0 {
    } else {
      var before := steps[..|steps| - 1];
      var s := Run(g, before);
      RunIsUnrepeated(g, before);
      RunIsHonest(g, before);
      match steps[|steps| - 1]
      case Publish(o) =>
        if WellFormedOrigin(g, o) {
          LaunchKeepsUnrepeated(g, s, o);
          LaunchKeepsHonest(g, s, o);
          PublishIsLaunchAndDeliver(g, s, o);
          DeliverKeepsUnrepeated(g, Launched(s, o), |s.flying|);
        }
      case Reply(k, device) =>
        if k < |g.links| {
          LaunchKeepsUnrepeated(g, s, Origin(device, [], g.links[k].subscriber));
        }
      case Deliver(i) =>
        if i < |s.flying| {
          DeliverKeepsUnrepeated(g, s, i);
        }
    }
  }

  /** When nothing is in flight, every route of every message has been broadcast. */
  lemma {:induction false} RouteIsBroadcast(g: Graph, s: Net, t: nat, p: seq<Id>)
    requires Honest(g, s) && s.flying == [] && t < |s.origins| && IsRoute(g, s.origins[t], p)
    ensures Entry(t, p) in s.log
    decreases |p|
  {
    var o := s.origins[t];
    if |p| <= |o.before| + 1 {
      assert Entry(t, o.before + [o.at]) in s.log || Copy(t, o.before, o.at) in s.flying;
    } else {
      var q, v := p[..|p| - 1], p[|p| - 1];
      RouteIsBroadcast(g, s, t, q);
      assert Answered(s, Entry(t, q), v);
      assert q + [v] == p;
    }
  }

  /**
   Exactly one copy per simple path: on every simple graph, and whatever else was published meanwhile,
   once nothing is in flight the provenances broadcast for a message are exactly its simple paths from
   the origin along edges that admit it, each once.
   */
  lemma {:induction false} OneBroadcastPerSimplePath(g: Graph, steps: seq<Step>, t: nat, p: seq<Id>)
    requires WellFormedGraph(g) && SimpleLinks(g.links)
    requires Run(g, steps).flying == [] && t < |Run(g, steps).origins|
    ensures var s := Run(g, steps);
            multiset(s.log)[Entry(t, p)] == if TellsTheTruth(g, s.origins[t], p) then 1 else 0
  {
    var s := Run(g, steps);
    var e := Entry(t, p);
    RunIsHonest(g, steps);
    RunIsUnrepeated(g, steps);
    OccursOnce(s.log, e);
    if TellsTheTruth(g, s.origins[t], p) {
      TruthIsRoute(g, s.origins[t], p);
      RouteIsBroadcast(g, s, t, p);
    } else if e in s.log {
      RouteTellsTheTruth(g, s.origins[e.tag], e.provenance);
    }
  }

  lemma {:induction false} OccursOnce<T>(s: seq<T>, x: T)
    requires NoDuplicates(s)
    ensures multiset(s)[x] == if x in s then 1 else 0
  {
    if |s| == 0 {
    } else {
      var front := s[..|s| - 1];
      OccursOnce(front, x);
      assert s == front + [s[|s| - 1]];
      assert s[|s| - 1] !in front;
    }
  }

  // ---------- coverage ----------

  /** A walk along edges that admit the message; it may come back to where it has been. */
  predicate IsWalk(g: Graph, device: Device, w: seq<Id>) {
    |w| > 0 && forall k :: 0 < k < |w| ==> Edge(g, device, w[k - 1], w[k])
  }

  /** Some walk leads from `u` to `v`. */
  ghost predicate Reaches(g: Graph, device: Device, u: Id, v: Id) {
    exists w :: IsWalk(g, device, w) && w[0] == u && w[|w| - 1] == v
  }

  /** A route to any engine that a route has been through. */
  lemma {:induction false} RouteTo(g: Graph, o: Origin, p: seq<Id>, v: Id) returns (q: seq<Id>)
    requires IsRoute(g, o, p) && v in p && v !in o.before
    ensures IsRoute(g, o, q) && q[|q| - 1] == v
    decreases |p|
  {
    if p[|p| - 1] == v {
      q := p;
    } else {
      q := RouteTo(g, o, p[..|p| - 1], v);
    }
  }

  /** Loops can be cut out of a walk. */
  lemma {:induction false} WalkToRoute(g: Graph, o: Origin, w: seq<Id>) returns (p: seq<Id>)
    requires WellFormedGraph(g) && WellFormedOrigin(g, o) && IsWalk(g, o.device, w) && w[0] == o.at
    ensures IsRoute(g, o, p) && p[|p| - 1] == w[|w| - 1]
    decreases |w|
  {
    var v := w[|w| - 1];
    if |w| == 1 {
      p := o.before + [o.at];
    } else {
      var front := w[..|w| - 1];
      var q := WalkToRoute(g, o, front);
      assert Edge(g, o.device, w[|w| - 2], w[|w| - 1]);
      if v in q {
        p := RouteTo(g, o, q, v);
      } else {
        p := q + [v];
        assert p[..|p| - 1] == q;
        RouteLength(g, o, q);
      }
    }
  }

  /** Some broadcast of message `t` was made by `v`. */
  ghost predicate HasBroadcast(s: Net, t: nat, v: Id) {
    exists p :: Entry(t, p) in s.log && p != [] && p[|p| - 1] == v
  }

  lemma TruthIsWalk(g: Graph, o: Origin, p: seq<Id>)
    requires TellsTheTruth(g, o, p)
    ensures Reaches(g, o.device, o.at, p[|p| - 1])
  {
    var n := |o.before|;
    var w := p[n..];
    forall k | 0 < k < |w|
      ensures Edge(g, o.device, w[k - 1], w[k])
    {
      assert Edge(g, o.device, p[n + k - 1], p[n + k]);
    }
    assert IsWalk(g, o.device, w);
  }

  /** Coverage: once nothing is in flight, the engines that have broadcast a message are those its origin reaches. */
  lemma {:induction false} BroadcastByExactlyTheReachable(g: Graph, steps: seq<Step>, t: nat, v: Id)
    requires WellFormedGraph(g) && Run(g, steps).flying == [] && t < |Run(g, steps).origins|
    ensures var s := Run(g, steps);
            HasBroadcast(s, t, v) <==> Reaches(g, s.origins[t].device, s.origins[t].at, v)
  {
    var s := Run(g, steps);
    var o := s.origins[t];
    RunIsHonest(g, steps);
    if Reaches(g, o.device, o.at, v) {
      var w :| IsWalk(g, o.device, w) && w[0] == o.at && w[|w| - 1] == v;
      var p := WalkToRoute(g, o, w);
      RouteIsBroadcast(g, s, t, p);
    }
    if HasBroadcast(s, t, v) {
      var p :| Entry(t, p) in s.log && p != [] && p[|p| - 1] == v;
      assert IsRoute(g, s.origins[Entry(t, p).tag], p);
      RouteTellsTheTruth(g, o, p);
      TruthIsWalk(g, o, p);
    }
  }

  // ---------- the servers behind the steps ----------

  /** The connections of one engine's server, each named by the engine at the other end. */
  function ConnectionsOf(g: Graph, u: Id): map<Id, Subscriptions>
    requires SimpleLinks(g.links)
  {
    map k | 0 <= k < |g.links| && g.links[k].publisher == u :: g.links[k].subscriber := g.links[k].subs
  }

  lemma TargetIsEdge(g: Graph, u: Id, device: Device, v: Id)
    requires SimpleLinks(g.links) && v in Targets(ConnectionsOf(g, u), None, device)
    ensures Edge(g, device, u, v)
  {
  }

  lemma EdgeIsTarget(g: Graph, u: Id, device: Device, v: Id)
    requires SimpleLinks(g.links) && Edge(g, device, u, v)
    ensures v in Targets(ConnectionsOf(g, u), None, device)
  {
  }

  /** A replying step puts in flight what `Server.Subscribe` sends: a message without provenance, to the subscriber. */
  lemma ReplyIsServerReply(g: Graph, s: Net, k: nat, msgs: seq<Message>, i: nat)
    requires k < |g.links| && i < |msgs| && msgs[i].provenance == []
    ensures var reply := SentAlong(g.links[k].subscriber, msgs)[i];
            var s' := After(g, s, Reply(k, reply.msg.device));
            && s'.flying == s.flying + [Copy(|s.origins|, reply.msg.provenance, reply.conn)]
            && s'.origins == s.origins + [Origin(reply.msg.device, [], reply.conn)]
            && s'.log == s.log
  {
  }

  /**
   A broadcasting step sends what `Server.Broadcast` ensures for connections that all work: one
   message, stamped with the engine's id, to each of its targets.
   */
  lemma BroadcastingIsServerBroadcast(g: Graph, u: Id, device: Device, tag: nat, provenance: seq<Id>, body: string)
    requires SimpleLinks(g.links)
    ensures var p := Stamp(Some(u), Message(device, provenance, body)).provenance;
            var out := Fanout(g.links, u, device, tag, p);
            && p == provenance + [u]
            && NoDuplicates(out)
            && forall v :: Copy(tag, p, v) in out <==> v in Targets(ConnectionsOf(g, u), None, device)
  {
    var p := provenance + [u];
    FanoutIsEdges(g, u, device, tag, p);
    forall v
      ensures Copy(tag, p, v) in Fanout(g.links, u, device, tag, p) <==> v in Targets(ConnectionsOf(g, u), None, device)
    {
      if Edge(g, device, u, v) {
        EdgeIsTarget(g, u, device, v);
      }
      if v in Targets(ConnectionsOf(g, u), None, device) {
        TargetIsEdge(g, u, device, v);
      }
    }
  }
}
