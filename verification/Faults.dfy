/**
 The network when connections fail: copies are lost, and broken connections are removed. What reaches
 whom is then open, but provenance stays honest and the network still comes to rest.
 */
module Faults {
  import opened Options
  import opened SocketServer
  import opened Network
  import opened Provenance

  /** The links that are left, and the network. */
  datatype Faulty = Faulty(links: seq<Link>, net: Net)

  datatype FaultyStep =
    | Regular(step: Step)
    | Lose(index: nat)     // a copy in flight never arrives
    | Unlink(link: nat)    // a connection is found dead and removed

  /** The graph with the links that are left. */
  function Now(g: Graph, f: Faulty): Graph {
    Graph(g.engines, f.links)
  }

  function AfterFaulty(g: Graph, f: Faulty, step: FaultyStep): Faulty {
    match step
    case Regular(step) => f.(net := After(Now(g, f), f.net, step))
    case Lose(i) => if i < |f.net.flying| then f.(net := f.net.(flying := Remove(f.net.flying, i))) else f
    case Unlink(k) => if k < |f.links| then f.(links := Remove(f.links, k)) else f
  }

  function FaultyRun(g: Graph, steps: seq<FaultyStep>): Faulty {
    if |steps| == 0 then Faulty(g.links, START) else AfterFaulty(g, FaultyRun(g, steps[..|steps| - 1]), steps[|steps| - 1])
  }

  predicate Left(g: Graph, links: seq<Link>) {
    |links| <= |g.links| && forall l :: l in links ==> l in g.links
  }

  /** The part of the invariant that needs no copy to arrive, about the graph as it was. */
  predicate Sound(g: Graph, s: Net) {
    OriginsOk(g, s) && LogOk(g, s) && FlyingOk(g, s)
  }

  lemma LaunchKeepsSound(g: Graph, s: Net, o: Origin)
    requires Sound(g, s) && WellFormedOrigin(g, o)
    ensures Sound(g, Launched(s, o))
  {
    var s' := Launched(s, o);
    assert forall t :: 0 <= t < |s.origins| ==> s'.origins[t] == s.origins[t];
    forall c | c in s'.flying
      ensures CopyOk(g, s', c)
    {
      assert c in s.flying ==> CopyOk(g, s, c);
    }
  }

  lemma LosingKeepsSound(g: Graph, s: Net, i: nat)
    requires Sound(g, s) && i < |s.flying|
    ensures Sound(g, s.(flying := Remove(s.flying, i)))
  {
    RemoveFacts(s.flying, i);
    forall c | c in Remove(s.flying, i)
      ensures CopyOk(g, s.(flying := Remove(s.flying, i)), c)
    {
      assert CopyOk(g, s, c);
    }
  }

  /** The copies of a broadcast along the links that are left. */
  lemma FanoutLeft(g: Graph, links: seq<Link>, u: Id, device: Device, tag: nat, p: seq<Id>)
    requires WellFormedGraph(g) && Left(g, links)
    ensures forall c :: c in Fanout(links, u, device, tag, p) ==>
              c.tag == tag && c.provenance == p && c.to in g.engines && Edge(g, device, u, c.to)
  {
    FanoutIsEdges(Graph(g.engines, links), u, device, tag, p);
  }

  lemma ForwardKeepsSound(g: Graph, now: Graph, s: Net, i: nat)
    requires WellFormedGraph(g) && Left(g, now.links) && Sound(g, s)
    requires i < |s.flying| && s.flying[i].to !in s.flying[i].provenance
    ensures s.flying[i].tag < |s.origins| && Sound(g, Delivered(now, s, i))
  {
    var c := s.flying[i];
    assert c in s.flying && CopyOk(g, s, c);
    var s' := Delivered(now, s, i);
    var p := c.provenance + [c.to];
    var device := s.origins[c.tag].device;
    RemoveFacts(s.flying, i);
    ForwardedIsRoute(g, s, c);
    FanoutLeft(g, now.links, c.to, device, c.tag, p);
    assert Entry(c.tag, p) in s'.log;
    forall x | x in s'.flying
      ensures CopyOk(g, s', x)
    {
      if x in Remove(s.flying, i) {
        assert CopyOk(g, s, x);
      } else {
        assert Edge(g, device, c.to, x.to);
      }
    }
  }

  lemma DeliverKeepsSound(g: Graph, now: Graph, s: Net, i: nat)
    requires WellFormedGraph(g) && Left(g, now.links) && Sound(g, s) && i < |s.flying|
    ensures s.flying[i].tag < |s.origins| && Sound(g, Delivered(now, s, i))
  {
    assert CopyOk(g, s, s.flying[i]);
    if s.flying[i].to in s.flying[i].provenance {
      LosingKeepsSound(g, s, i);
    } else {
      ForwardKeepsSound(g, now, s, i);
    }
  }

  lemma RegularKeepsSound(g: Graph, now: Graph, s: Net, step: Step)
    requires WellFormedGraph(g) && now.engines == g.engines && Left(g, now.links) && Sound(g, s)
    ensures Sound(g, After(now, s, step))
  {
    match step
    case Publish(o) =>
      if WellFormedOrigin(now, o) {
        LaunchKeepsSound(g, s, o);
        PublishIsLaunchAndDeliver(now, s, o);
        DeliverKeepsSound(g, now, Launched(s, o), |s.flying|);
      }
    case Reply(k, device) =>
      if k < |now.links| {
        assert now.links[k] in g.links;
        LaunchKeepsSound(g, s, Origin(device, [], now.links[k].subscriber));
      }
    case Deliver(i) =>
      if i < |s.flying| {
        DeliverKeepsSound(g, now, s, i);
      }
  }

  lemma StepKeepsSound(g: Graph, f: Faulty, step: FaultyStep)
    requires WellFormedGraph(g) && Left(g, f.links) && Sound(g, f.net)
    ensures var f' := AfterFaulty(g, f, step); Left(g, f'.links) && Sound(g, f'.net)
  {
    match step
    case Regular(step) => RegularKeepsSound(g, Now(g, f), f.net, step);
    case Lose(i) =>
      if i < |f.net.flying| {
        LosingKeepsSound(g, f.net, i);
      }
    case Unlink(k) =>
      if k < |f.links| {
        RemoveFacts(f.links, k);
      }
  }

  lemma {:induction false} FaultyRunIsSound(g: Graph, steps: seq<FaultyStep>)
    requires WellFormedGraph(g)
    ensures Left(g, FaultyRun(g, steps).links) && Sound(g, FaultyRun(g, steps).net)
  {
    if |steps| == 0 {
    } else {
      FaultyRunIsSound(g, steps[..|steps| - 1]);
      StepKeepsSound(g, FaultyRun(g, steps[..|steps| - 1]), steps[|steps| - 1]);
    }
  }

  // ---------- the main results ----------

  /** Provenance stays honest whatever is lost and whichever connections break. */
  lemma {:induction false} HonestDespiteFaults(g: Graph, steps: seq<FaultyStep>)
    requires WellFormedGraph(g)
    ensures AllTellTheTruth(g, FaultyRun(g, steps).net)
  {
    FaultyRunIsSound(g, steps);
    LogTellsTheTruth(g, FaultyRun(g, steps).net);
  }

  /** Deliveries, losses and broken connections, each of something that is there. */
  ghost predicate NothingNew(g: Graph, f: Faulty, steps: seq<FaultyStep>)
    decreases |steps|
  {
    |steps| > 0 ==>
      && (match steps[0]
          case Regular(step) => step.Deliver? && step.index < |f.net.flying|
          case Lose(i) => i < |f.net.flying|
          case Unlink(k) => k < |f.links|)
      && NothingNew(g, AfterFaulty(g, f, steps[0]), steps[1..])
  }

  /** What can still happen when nothing new is published. */
  function Remaining(g: Graph, f: Faulty): nat {
    Measure(g, f.net.flying) + |f.links|
  }

  lemma StepUsesUp(g: Graph, f: Faulty, step: FaultyStep)
    requires Left(g, f.links) && Sound(g, f.net) && NothingNew(g, f, [step])
    ensures Remaining(g, AfterFaulty(g, f, step)) < Remaining(g, f)
  {
    match step
    case Regular(deliver) =>
      assert CopyOk(g, f.net, f.net.flying[deliver.index]);
      DeliveryDecreases(g, Now(g, f), f.net, deliver.index);
    case Lose(i) =>
      MeasureRemove(g, f.net.flying, i);
      WeightIsPositive(|g.links|, |Missing(g, f.net.flying[i].provenance)|);
    case Unlink(k) =>
  }

  /** And the network comes to rest: with nothing new published, only so many steps of any kind can follow. */
  lemma {:induction false} QuiescesDespiteFaults(g: Graph, f: Faulty, steps: seq<FaultyStep>)
    requires WellFormedGraph(g) && Left(g, f.links) && Sound(g, f.net) && NothingNew(g, f, steps)
    ensures |steps| <= Remaining(g, f)
    decreases |steps|
  {
    if |steps| == 0 {
    } else {
      assert NothingNew(g, f, [steps[0]]);
      StepUsesUp(g, f, steps[0]);
      StepKeepsSound(g, f, steps[0]);
      QuiescesDespiteFaults(g, AfterFaulty(g, f, steps[0]), steps[1..]);
    }
  }
}
