/** Stopping a local pipeline: components are shut down from the source to the sink, each
  * only after its input consumers are clear, and streams are deleted only after that. */
module Orchestrator {
  import opened Wrappers

  datatype Component = Ingestor(replica: nat) | Join | Sink

  /** A consumer's messages: not yet delivered, and delivered but not acknowledged. */
  datatype Consumer = Consumer(pending: nat, unacknowledged: nat) {
    function Load(): nat { pending + unacknowledged }
  }

  /** The input consumers of the join and of the sink. */
  datatype Loads = Loads(left: Consumer, right: Consumer, sink: Consumer) {
    function Of(which: Which): Consumer {
      match which
      case LeftInput => left
      case RightInput => right
      case SinkInput => sink
    }

    predicate JoinClear() { left.Load() == 0 && right.Load() == 0 }
    predicate Drained(joinEnabled: bool) { (joinEnabled ==> JoinClear()) && sink.Load() == 0 }
  }

  datatype Which = LeftInput | RightInput | SinkInput

  datatype PipelineConfig = PipelineConfig(id: string, joinEnabled: bool, resolvable: bool)

  datatype Error = PipelineNotFound | NoConfig | Unresolved | CheckFailed | HasPending | Timeout

  /** What can happen between two states while these components run: only a running ingestor
    * adds input, and a join without unacknowledged input adds nothing for the sink. */
  ghost predicate Onward(a: Loads, b: Loads, ingesting: bool, joining: bool) {
    !ingesting ==>
      && b.left.Load() <= a.left.Load() && b.right.Load() <= a.right.Load()
      && (!joining || a.JoinClear() ==> b.sink.Load() <= a.sink.Load())
  }

  /** Once the ingestors have stopped, a clear join stays clear, and once the join has nothing
    * left or is stopped, so does the sink: what was observed clear stays clear. */
  lemma ClearIsStable(a: Loads, b: Loads, c: Loads, joining: bool)
    requires Onward(a, b, false, joining) && Onward(b, c, false, joining)
    ensures Onward(a, c, false, joining)
    ensures a.JoinClear() ==> c.JoinClear()
    ensures a.Drained(true) ==> c.Drained(true)
    ensures !joining && a.sink.Load() == 0 ==> c.sink.Load() == 0
  {
  }

  /** The running components and the messages on their way between them. */
  class Cluster {
    const joinEnabled: bool
    var alive: set<Component>
    var loads: Loads
    /** The state in which input streams were deleted. */
    ghost var deletedWith: Option<Loads>
    /** Some look at a consumer failed or found messages. */
    ghost var troubled: bool

    constructor (joinEnabled: bool, alive: set<Component>, loads: Loads)
      ensures this.joinEnabled == joinEnabled && this.alive == alive && this.loads == loads && deletedWith == None &&
        !troubled
    {
      this.joinEnabled, this.alive, this.loads, deletedWith, troubled := joinEnabled, alive, loads, None, false;
    }

    ghost predicate Ingesting()
      reads this`alive
    {
      exists c :: c in alive && c.Ingestor?
    }

    ghost predicate Joining()
      reads this`alive
    {
      joinEnabled && Join in alive
    }

    /** One step of some component or of the broker. */
    method Step()
      modifies this`loads
      ensures Onward(old(loads), loads, Ingesting(), Joining())
    {
      var l := loads;
      var more: nat :| 0 <= more;
      var ingesting := exists c :: c in alive && c.Ingestor?;
      if
      case true =>
      case ingesting && !joinEnabled =>
        loads := l.(sink := Consumer(l.sink.pending + more, l.sink.unacknowledged));
      case ingesting && joinEnabled =>
        loads := l.(left := Consumer(l.left.pending + more, l.left.unacknowledged));
      case ingesting && joinEnabled =>
        loads := l.(right := Consumer(l.right.pending + more, l.right.unacknowledged));
      case l.left.pending > 0 =>
        loads := l.(left := Consumer(l.left.pending - 1, l.left.unacknowledged + 1));
      case l.left.unacknowledged > 0 =>
        loads := l.(left := Consumer(l.left.pending + 1, l.left.unacknowledged - 1));
      case l.right.pending > 0 =>
        loads := l.(right := Consumer(l.right.pending - 1, l.right.unacknowledged + 1));
      case l.right.unacknowledged > 0 =>
        loads := l.(right := Consumer(l.right.pending + 1, l.right.unacknowledged - 1));
      case l.sink.pending > 0 =>
        loads := l.(sink := Consumer(l.sink.pending - 1, l.sink.unacknowledged + 1));
      case l.sink.unacknowledged > 0 =>
        loads := l.(sink := Consumer(l.sink.pending + 1, l.sink.unacknowledged - 1));
      case joinEnabled && Join in alive && (l.left.unacknowledged > 0 || l.right.unacknowledged > 0) =>
        loads := l.(sink := Consumer(l.sink.pending + more, l.sink.unacknowledged));
      case Join in alive && l.left.unacknowledged > 0 =>
        loads := l.(left := Consumer(l.left.pending, l.left.unacknowledged - 1));
      case Join in alive && l.right.unacknowledged > 0 =>
        loads := l.(right := Consumer(l.right.pending, l.right.unacknowledged - 1));
      case Sink in alive && l.sink.unacknowledged > 0 =>
        loads := l.(sink := Consumer(l.sink.pending, l.sink.unacknowledged - 1));
    }

    /** Any number of steps. */
    method Elapse()
      modifies this`loads
      ensures Onward(old(loads), loads, Ingesting(), Joining())
    {
      var steps: nat :| 0 <= steps;
      while steps > 0
        invariant Onward(old(loads), loads, Ingesting(), Joining())
      {
        Step();
        steps := steps - 1;
      }
    }

    /** Asks a component to stop and waits until it has. */
    method Shutdown(c: Component)
      modifies this`alive, this`loads
      ensures alive == old(alive) - {c}
      ensures Onward(old(loads), loads, old(Ingesting()), old(Joining()))
    {
      Elapse();
      alive := alive - {c};
    }

    method CheckConsumerPendingMessages(which: Which) returns (r: Option<bool>)
      modifies this`loads, this`troubled
      ensures troubled == (old(troubled) || r != Some(false))
      ensures Onward(old(loads), loads, Ingesting(), Joining())
      ensures r == Some(false) ==> loads.Of(which).Load() == 0
    {
      Elapse();
      var fails := *;
      if fails {
        troubled := true;
        return None;
      }
      var c := loads.Of(which);
      troubled := troubled || c.Load() > 0;
      return Some(c.pending + c.unacknowledged > 0);
    }

    method DeleteStreams()
      modifies this`deletedWith
      ensures deletedWith == Some(loads)
    {
      deletedWith := Some(loads);
    }
  }

  class LocalOrchestrator {
    const cluster: Cluster
    var id: string
    var ingestorRunners: seq<Component>
    var joinRunner: Option<Component>
    var sinkRunner: Option<Component>
    var pipelineConfig: Option<PipelineConfig>

    constructor (cluster: Cluster)
      ensures this.cluster == cluster && id == "" && ingestorRunners == [] && joinRunner == sinkRunner == None &&
        pipelineConfig == None
    {
      this.cluster, id, ingestorRunners, joinRunner, sinkRunner, pipelineConfig := cluster, "", [], None, None, None;
    }

    /** SetupPipeline has completed: every component that the configuration asks for has its runner. */
    ghost predicate SetUp()
      reads this, cluster`alive
    {
      && pipelineConfig.Some? && pipelineConfig.value.joinEnabled == cluster.joinEnabled
      && (forall c :: c in cluster.alive && c.Ingestor? ==> c in ingestorRunners)
      && (forall c :: c in ingestorRunners ==> c.Ingestor?)
      && joinRunner == (if cluster.joinEnabled then Some(Join) else None)
      && sinkRunner == Some(Sink)
    }

    ghost predicate Stopped()
      reads cluster`alive
    {
      !cluster.Ingesting() && !cluster.Joining() && Sink !in cluster.alive
    }

    method CheckConsumerPendingMessages(which: Which) returns (err: Option<Error>)
      modifies cluster`loads, cluster`troubled
      ensures cluster.troubled == (old(cluster.troubled) || err.Some?)
      ensures Onward(old(cluster.loads), cluster.loads, cluster.Ingesting(), cluster.Joining())
      ensures err.None? ==> cluster.loads.Of(which).Load() == 0
    {
      var hasPending := cluster.CheckConsumerPendingMessages(which);
      err := if hasPending.None? then Some(CheckFailed) else if hasPending.value then Some(HasPending) else None;
    }

    /** checkJoinFunc: first the left consumer, then the right one. */
    method CheckJoin(pipeline: PipelineConfig) returns (err: Option<Error>)
      modifies cluster`loads, cluster`troubled
      ensures old(cluster.troubled) ==> cluster.troubled
      ensures err.Some? ==> cluster.troubled || !pipeline.resolvable
      ensures Onward(old(cluster.loads), cluster.loads, cluster.Ingesting(), cluster.Joining())
      ensures err.None? && pipeline.joinEnabled && !cluster.Ingesting() ==> cluster.loads.JoinClear()
    {
      if !pipeline.joinEnabled {
        return None;
      }
      if !pipeline.resolvable {
        return Some(Unresolved);
      }
      err := CheckConsumerPendingMessages(LeftInput);
      if err.None? {
        err := CheckConsumerPendingMessages(RightInput);
      }
    }

    method CheckSink(pipeline: PipelineConfig) returns (err: Option<Error>)
      modifies cluster`loads, cluster`troubled
      ensures old(cluster.troubled) ==> cluster.troubled
      ensures err.Some? ==> cluster.troubled || !pipeline.resolvable
      ensures Onward(old(cluster.loads), cluster.loads, cluster.Ingesting(), cluster.Joining())
      ensures err.None? ==> cluster.loads.sink.Load() == 0
    {
      if !pipeline.resolvable {
        return Some(Unresolved);
      }
      err := CheckConsumerPendingMessages(SinkInput);
    }

    /** Checks at most thirty times, waiting in between. */
    method WaitForPendingMessagesToClear(pipeline: PipelineConfig, joinInput: bool)
      returns (err: Option<Error>, checks: nat)
      modifies cluster`loads, cluster`troubled
      ensures old(cluster.troubled) ==> cluster.troubled
      ensures err.Some? ==> cluster.troubled || !pipeline.resolvable
      ensures Onward(old(cluster.loads), cluster.loads, cluster.Ingesting(), cluster.Joining())
      ensures err.None? && joinInput && pipeline.joinEnabled && !cluster.Ingesting() ==> cluster.loads.JoinClear()
      ensures err.None? && !joinInput ==> cluster.loads.sink.Load() == 0
      ensures checks <= 30 && (err.Some? ==> checks == 30 && err.value == Timeout)
    {
      checks := 0;
      for i := 0 to 30
        invariant (old(cluster.troubled) ==> cluster.troubled) && (i > 0 ==> cluster.troubled || !pipeline.resolvable)
        invariant checks == i && Onward(old(cluster.loads), cluster.loads, cluster.Ingesting(), cluster.Joining())
      {
        if joinInput {
          err := CheckJoin(pipeline);
        } else {
          err := CheckSink(pipeline);
        }
        checks := checks + 1;
        if err.None? {
          return;
        }
        cluster.Elapse();
      }
      err := Some(Timeout);
    }

    /** If this returns nil for a completely set-up pipeline, every component has stopped and
      * no input message of the join or of the sink is pending or unacknowledged. */
    method PausePipelineComponents() returns (err: Option<Error>)
      modifies cluster`loads, cluster`alive, cluster`troubled
      ensures cluster.alive <= old(cluster.alive)
      ensures old(cluster.troubled) ==> cluster.troubled
      ensures err.Some? ==> err.value == NoConfig || err.value == Timeout
      ensures err.Some? ==> cluster.troubled || pipelineConfig.None? || !pipelineConfig.value.resolvable
      ensures old(SetUp()) && err.None? ==> cluster.loads.Drained(cluster.joinEnabled) && Stopped()
    {
      ghost var complete := SetUp();
      for i := 0 to |ingestorRunners|
        invariant cluster.alive <= old(cluster.alive) && cluster.troubled == old(cluster.troubled)
        invariant forall j :: 0 <= j < i ==> ingestorRunners[j] !in cluster.alive
      {
        cluster.Shutdown(ingestorRunners[i]);
      }
      var checks;
      if joinRunner.Some? {
        if pipelineConfig.None? {
          return Some(NoConfig);
        }
        err, checks := WaitForPendingMessagesToClear(pipelineConfig.value, true);
        if err.Some? {
          return;
        }
        cluster.Shutdown(joinRunner.value);
      }
      if sinkRunner.Some? {
        if pipelineConfig.None? {
          return Some(NoConfig);
        }
        err, checks := WaitForPendingMessagesToClear(pipelineConfig.value, false);
        if err.Some? {
          return;
        }
        cluster.Shutdown(sinkRunner.value);
      }
      err := None;
    }

    /** Forgets the pipeline and deletes its streams. */
    method TerminatePipelineComponents()
      modifies this, cluster`deletedWith
      ensures id == "" && ingestorRunners == [] && joinRunner == sinkRunner == None && pipelineConfig == None
      ensures cluster.deletedWith == if old(pipelineConfig).Some? then Some(cluster.loads) else old(cluster.deletedWith)
    {
      id, ingestorRunners, joinRunner, sinkRunner := "", [], None, None;
      if pipelineConfig.Some? {
        cluster.DeleteStreams();
      }
      pipelineConfig := None;
    }

    /** Streams of a completely set-up pipeline are deleted only with everything stopped and
      * every input acknowledged; a refused or failed stop deletes nothing and forgets
      * nothing, so that it can be tried again. */
    method StopPipeline(pid: string) returns (err: Option<Error>)
      modifies this, cluster
      ensures err == Some(PipelineNotFound) <==> old(id) != pid
      ensures err.Some? ==> cluster.deletedWith == old(cluster.deletedWith)
      ensures old(id) == pid && old(SetUp()) && old(pipelineConfig).value.resolvable && !cluster.troubled ==> err.None?
      ensures err.Some? ==> unchanged(this) && (old(SetUp()) ==> SetUp())
      ensures err.None? ==> old(id) == pid && id == "" && pipelineConfig == None
      ensures old(SetUp()) && err.None? ==>
        Stopped() && cluster.deletedWith.Some? && cluster.deletedWith.value.Drained(cluster.joinEnabled)
    {
      if id != pid {
        return Some(PipelineNotFound);
      }
      if ingestorRunners != [] || joinRunner.Some? || sinkRunner.Some? {
        err := PausePipelineComponents();
        if err.Some? {
          return;
        }
      }
      TerminatePipelineComponents();
      err := None;
    }
  }

  /** However often stopping is tried, streams are not deleted over unprocessed input. */
  method StopWithRetries(d: LocalOrchestrator, pid: string, attempts: nat) returns (err: Option<Error>)
    requires d.SetUp() && d.cluster.deletedWith == None
    modifies d, d.cluster
    ensures d.cluster.deletedWith.Some? ==> d.cluster.deletedWith.value.Drained(d.cluster.joinEnabled)
    ensures err.None? <==> d.cluster.deletedWith.Some?
  {
    err := Some(Timeout);
    for i := 0 to attempts
      invariant err.Some? && d.SetUp() && d.cluster.deletedWith == None
    {
      err := d.StopPipeline(pid);
      if err.None? {
        return;
      }
      d.cluster.Elapse();
    }
  }
}
