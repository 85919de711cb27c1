/** The Kafka consumer around the ingestor: poll, process, commit, and what the broker's
  * group offsets may therefore claim over any run with failures and restarts. */
module KafkaConsumer {
  import opened Batches
  import opened Stream
  import opened Wrappers
  import Ingestor

  /** A commit as the broker saw it: the group's offsets just after, and what was settled then. */
  datatype Commit = Commit(offsets: seq<nat>, books: Totals)

  /** One log per partition; offsets grow, with gaps where compaction removed records. */
  ghost predicate IsLog(log: seq<seq<Record>>) {
    && (forall p, i :: 0 <= p < |log| && 0 <= i < |log[p]| ==> log[p][i].partition == p)
    && (forall p, i, j :: 0 <= p < |log| && 0 <= i < j < |log[p]| ==> log[p][i].offset < log[p][j].offset)
  }

  ghost predicate IsSettled(t: Totals, r: Record) {
    t.acked[r] + t.dead[r] > 0
  }

  /** Every record below the given offsets was acknowledged by NATS or dead-lettered. */
  ghost predicate Covers(log: seq<seq<Record>>, offsets: seq<nat>, t: Totals) {
    && |offsets| == |log|
    && forall p, i :: 0 <= p < |log| && 0 <= i < |log[p]| && log[p][i].offset < offsets[p] ==> IsSettled(t, log[p][i])
  }

  /** Every record before the given positions is settled. */
  ghost predicate Behind(log: seq<seq<Record>>, position: seq<nat>, t: Totals) {
    && |position| == |log|
    && (forall p :: 0 <= p < |log| ==> position[p] <= |log[p]|)
    && (forall p, i :: 0 <= p < |log| && 0 <= i < position[p] ==> IsSettled(t, log[p][i]))
  }

  ghost predicate InRange(log: seq<seq<Record>>, from: seq<nat>, to: seq<nat>, r: Record)
    requires |from| == |to| == |log|
  {
    && r.partition < |log|
    && exists i :: from[r.partition] <= i < to[r.partition] <= |log[r.partition]| && log[r.partition][i] == r
  }

  /** `batch` is what lies between two poll positions, each partition in offset order. */
  ghost predicate Polled(log: seq<seq<Record>>, from: seq<nat>, to: seq<nat>, batch: seq<Record>) {
    && |from| == |to| == |log|
    && (forall p :: 0 <= p < |log| ==> from[p] <= to[p] <= |log[p]|)
    && (forall p, i :: 0 <= p < |log| && from[p] <= i < to[p] ==> log[p][i] in batch)
    && (forall j :: 0 <= j < |batch| ==> InRange(log, from, to, batch[j]))
    && (forall j, k :: 0 <= j < k < |batch| && batch[j].partition == batch[k].partition ==>
      batch[j].offset < batch[k].offset)
  }

  ghost predicate Grew(t0: Totals, t: Totals) {
    forall r :: t0.acked[r] <= t.acked[r] && t0.dead[r] <= t.dead[r]
  }

  lemma GrewKeeps(log: seq<seq<Record>>, t0: Totals, t: Totals)
    requires Grew(t0, t)
    ensures forall offsets :: Covers(log, offsets, t0) ==> Covers(log, offsets, t)
    ensures forall position :: Behind(log, position, t0) ==> Behind(log, position, t)
  {
  }

  lemma OutcomeGrew(batch: seq<Record>, t0: Totals, t: Totals, k: int)
    requires Ingestor.Outcome(batch, t0, t, k)
    ensures Grew(t0, t)
  {
    forall r ensures t0.acked[r] <= t.acked[r] && t0.dead[r] <= t.dead[r] {
      if r in batch {
        var i :| 0 <= i < |batch| && batch[i] == r;
        assert Ingestor.SettledTimes(batch[i], t0, t, 0) || Ingestor.SettledTimes(batch[i], t0, t, 1);
      } else {
        assert Ingestor.SettledTimes(r, t0, t, 0);
      }
    }
  }

  /** A fully settled batch may be committed by position. */
  lemma WholeBatch(log: seq<seq<Record>>, from: seq<nat>, to: seq<nat>, batch: seq<Record>, t0: Totals, t: Totals)
    requires Behind(log, from, t0) && Polled(log, from, to, batch)
    requires Ingestor.Outcome(batch, t0, t, |batch| - 1)
    ensures Behind(log, to, t)
  {
    OutcomeGrew(batch, t0, t, |batch| - 1);
    GrewKeeps(log, t0, t);
    forall p, i | 0 <= p < |log| && 0 <= i < to[p] ensures IsSettled(t, log[p][i]) {
      if from[p] <= i {
        var j :| 0 <= j < |batch| && batch[j] == log[p][i];
        assert Ingestor.SettledTimes(batch[j], t0, t, 1);
      }
    }
  }

  /** After a failure the end of the settled prefix may be committed for its own partition:
    * all the records of that partition below it are in the prefix or were settled before. */
  lemma PartialBatch(log: seq<seq<Record>>, from: seq<nat>, to: seq<nat>, batch: seq<Record>, t0: Totals, t: Totals,
                     k: nat, offsets: seq<nat>)
    requires IsLog(log) && Behind(log, from, t0) && Polled(log, from, to, batch) && Covers(log, offsets, t0)
    requires k < |batch| && Ingestor.Outcome(batch, t0, t, k)
    ensures batch[k].partition < |offsets| && Covers(log, offsets[batch[k].partition := batch[k].offset + 1], t)
  {
    OutcomeGrew(batch, t0, t, k);
    GrewKeeps(log, t0, t);
    var p := batch[k].partition;
    forall i | 0 <= i < |log[p]| && log[p][i].offset <= batch[k].offset ensures IsSettled(t, log[p][i]) {
      var m :| from[p] <= m < to[p] && log[p][m] == batch[k];
      assert i <= m;
      if from[p] <= i {
        var j :| 0 <= j < |batch| && batch[j] == log[p][i];
        assert j <= k;
        assert Ingestor.SettledTimes(batch[j], t0, t, 1);
      }
    }
  }

  lemma PolledIsDistinct(log: seq<seq<Record>>, from: seq<nat>, to: seq<nat>, batch: seq<Record>)
    requires Polled(log, from, to, batch)
    ensures Ingestor.Distinct(batch)
  {
  }

  /** Fetching some more of one partition. */
  lemma PolledMore(log: seq<seq<Record>>, from: seq<nat>, to: seq<nat>, batch: seq<Record>, p: nat, n: nat)
    requires IsLog(log) && Polled(log, from, to, batch) && p < |log| && to[p] == from[p] && from[p] + n <= |log[p]|
    ensures Polled(log, from, to[p := from[p] + n], batch + log[p][from[p]..from[p] + n])
  {
    var slice, to' := log[p][from[p]..from[p] + n], to[p := from[p] + n];
    var batch' := batch + slice;
    forall q, i | 0 <= q < |log| && from[q] <= i < to'[q] ensures log[q][i] in batch' {
      if q == p {
        assert slice[i - from[p]] == log[q][i];
      }
    }
    forall j | 0 <= j < |batch'| ensures InRange(log, from, to', batch'[j]) {
      if j < |batch| {
        assert InRange(log, from, to, batch[j]);
      } else {
        assert log[p][from[p] + j - |batch|] == batch'[j];
      }
    }
    forall j, k | 0 <= j < k < |batch'| && batch'[j].partition == batch'[k].partition
      ensures batch'[j].offset < batch'[k].offset
    {
      assert j < |batch| ==> InRange(log, from, to, batch[j]);
    }
  }

  /** Offsets that claim what was polled. */
  function Advanced(log: seq<seq<Record>>, committed: seq<nat>, position: seq<nat>): (offsets: seq<nat>)
    requires |committed| == |position| == |log|
    requires forall p :: 0 <= p < |log| ==> position[p] <= |log[p]|
    ensures |offsets| == |log|
  {
    seq(|log|, p requires 0 <= p < |log| =>
      if position[p] > 0 && committed[p] <= log[p][position[p] - 1].offset then log[p][position[p] - 1].offset + 1
      else committed[p])
  }

  /** Committing the polled cursor is safe exactly when nothing polled is unsettled, which is
    * why the consumer must not poll, or drop a fetch, with a batch in flight. */
  lemma CursorCommitIsSafeIff(log: seq<seq<Record>>, committed: seq<nat>, position: seq<nat>, t: Totals)
    requires IsLog(log) && Covers(log, committed, t) && |position| == |log|
    requires forall p :: 0 <= p < |log| ==> position[p] <= |log[p]|
    ensures Covers(log, Advanced(log, committed, position), t) <==> Behind(log, position, t)
  {
    var offsets := Advanced(log, committed, position);
    forall p, i | Covers(log, offsets, t) && 0 <= p < |log| && 0 <= i < position[p] ensures IsSettled(t, log[p][i]) {
      assert log[p][i].offset <= log[p][position[p] - 1].offset < offsets[p];
    }
  }

  /** One record's successor was committed for its partition. */
  ghost predicate MovedTo(before: seq<nat>, after: seq<nat>, r: Record) {
    r.partition < |before| && after == before[r.partition := r.offset + 1]
  }

  /** What the client was asked to commit, and whether the group accepted it. */
  datatype Request = One(record: Record, accepted: bool) | All(accepted: bool)

  /** The broker side: the partition logs, the client's poll position and the group's offsets. */
  class Cluster {
    const log: seq<seq<Record>>
    var position: seq<nat>
    var committed: seq<nat>
    ghost var audit: seq<Commit>
    ghost var requests: seq<Request>

    constructor (log: seq<seq<Record>>)
      requires IsLog(log)
      ensures this.log == log && audit == [] && requests == []
      ensures position == committed == seq(|log|, _ => 0)
    {
      this.log := log;
      position, committed, audit, requests := seq(|log|, _ => 0), seq(|log|, _ => 0), [], [];
    }

    ghost predicate Safe(t: Totals)
      reads this`committed, this`audit
    {
      && IsLog(log) && Covers(log, committed, t)
      && forall k :: 0 <= k < |audit| ==> Covers(log, audit[k].offsets, audit[k].books)
    }

    ghost predicate Shaped()
      reads this`position
    {
      |position| == |log| && forall p :: 0 <= p < |log| ==> position[p] <= |log[p]|
    }

    /** Any number of further records from any partitions, in any partition order. Fetch errors
      * other than cancellation are only logged. */
    method PollFetches(b: Broker) returns (batch: seq<Record>, canceled: bool)
      requires IsLog(log) && Shaped()
      modifies this`position
      ensures Shaped() && Polled(log, old(position), position, batch)
      ensures canceled ==> b.cancelTick <= b.ticks
    {
      hide Polled;
      batch := [];
      NothingPolled(log, position);
      var left := Below(|log|);
      while left != {}
        invariant forall p :: p in left ==> p < |log|
        invariant Shaped() && Polled(log, old(position), position, batch)
        invariant forall p :: p in left ==> position[p] == old(position)[p]
        decreases left
      {
        var p :| p in left;
        var at, n: nat := position[p], *;
        if n > |log[p]| - at {
          n := |log[p]| - at;
        }
        PolledMore(log, old(position), position, batch, p, n);
        batch := batch + log[p][at..at + n];
        position := position[p := at + n];
        left := left - {p};
      }
      canceled := *;
      canceled := canceled && b.cancelTick <= b.ticks;
    }

    /** Commits one record's successor for its partition; may fail without effect. */
    method CommitRecords(r: Record, b: Broker) returns (ok: bool)
      requires r.partition < |committed|
      modifies this`committed, this`audit, this`requests
      ensures requests == old(requests) + [One(r, ok)]
      ensures !ok ==> committed == old(committed) && audit == old(audit)
      ensures ok ==>
        committed == old(committed)[r.partition := r.offset + 1] && audit == old(audit) + [Commit(committed, b.Books())]
    {
      ok := *;
      requests := requests + [One(r, ok)];
      if ok {
        committed := committed[r.partition := r.offset + 1];
        audit := audit + [Commit(committed, b.Books())];
      }
    }

    /** Commits whatever was polled; may fail without effect. */
    method CommitUncommittedOffsets(b: Broker) returns (ok: bool)
      requires Shaped() && |committed| == |log|
      modifies this`committed, this`audit, this`requests
      ensures requests == old(requests) + [All(ok)]
      ensures !ok ==> committed == old(committed) && audit == old(audit)
      ensures ok ==>
        committed == Advanced(log, old(committed), position) && audit == old(audit) + [Commit(committed, b.Books())]
    {
      ok := *;
      requests := requests + [All(ok)];
      if ok {
        committed := Advanced(log, committed, position);
        audit := audit + [Commit(committed, b.Books())];
      }
    }

    /** A new group member resumes each partition at the group's offset. */
    method Resume(ghost t: Totals)
      requires Safe(t)
      modifies this`position
      ensures Behind(log, position, t)
    {
      position := [];
      for p := 0 to |log|
        invariant |position| == p
        invariant forall q :: 0 <= q < p ==> position[q] <= |log[q]|
        invariant forall q, i :: 0 <= q < p && 0 <= i < position[q] ==> log[q][i].offset < committed[q]
      {
        var i := 0;
        while i < |log[p]| && log[p][i].offset < committed[p]
          invariant i <= |log[p]|
          invariant forall j :: 0 <= j < i ==> log[p][j].offset < committed[p]
        {
          i := i + 1;
        }
        position := position + [i];
      }
    }
  }

  /** A poll, with what was still in flight, or an error that processing a batch ended with. */
  datatype Step = Poll(inFlight: seq<Record>) | Stop(err: Error)

  /** Polls happen only with nothing in flight, and none after an error. */
  ghost predicate Orderly(history: seq<Step>) {
    && (forall k :: 0 <= k < |history| && history[k].Poll? ==> history[k].inFlight == [])
    && (forall k :: 0 <= k < |history| && history[k].Stop? ==> k == |history| - 1)
  }

  /** No error so far. */
  ghost predicate Going(history: seq<Step>) {
    Orderly(history) && forall k :: 0 <= k < |history| ==> history[k].Poll?
  }

  function Ended(history: seq<Step>, err: Option<Error>): seq<Step> {
    if err.Some? then history + [Stop(err.value)] else history
  }

  lemma KeepGoing(history: seq<Step>, err: Option<Error>)
    requires Going(history)
    ensures Orderly([]) && Going([]) && Orderly(history)
    ensures Going(history + [Poll([])])
    ensures Orderly(Ended(history, err)) && (err.None? ==> Going(Ended(history, err)))
  {
  }

  /** How the run of a consumer ends: with the error of the step that stopped it, or with none. */
  ghost predicate EndsAs(history: seq<Step>, err: Option<Error>) {
    Orderly(history) && if err.Some? then history != [] && history[|history| - 1] == Stop(err.value) else Going(history)
  }

  /** What processing a batch asks the client to commit and reports, when the processor returned
    * `failed` and settled the batch up to index k: after success everything polled, whose
    * refusal is reported, and after an error the last settled record, if there is one. */
  ghost predicate Reported(batch: seq<Record>, k: int, failed: Option<Error>, before: seq<Request>, after: seq<Request>,
                           err: Option<Error>)
    requires -1 <= k < |batch|
  {
    match failed
    case None => after == before + [All(err.None?)]
    case Some(_) => err == failed && (if k < 0 then after == before else AskedFor(batch[k], before, after))
  }

  ghost predicate AskedFor(r: Record, before: seq<Request>, after: seq<Request>) {
    exists ok :: after == before + [One(r, ok)]
  }

  class Consumer {
    const client: Cluster
    const processor: Ingestor.KafkaMsgProcessor
    const b: Broker
    const async: bool
    var batch: seq<Record>
    ghost var polledFrom: seq<nat>
    ghost var history: seq<Step>

    constructor (client: Cluster, processor: Ingestor.KafkaMsgProcessor, b: Broker, async: bool)
      ensures this.client == client && this.processor == processor && this.b == b
      ensures batch == [] && polledFrom == client.position && history == []
    {
      this.client, this.processor, this.b, this.async := client, processor, b, async;
      batch, polledFrom, history := [], client.position, [];
    }

    /** The commits made so far claim only settled records. */
    ghost predicate Safe()
      reads client`committed, client`audit, b`accepted, b`acked, b`dead, processor
    {
      client.Safe(b.Books()) && processor.cfg.Accepted() && processor.EpisodesBalance() && processor.Routed()
    }

    /** The load-bearing invariant: what was polled but is not settled is in c.batch. */
    ghost predicate InFlight()
      reads this`batch, this`polledFrom, client`position, b`accepted, b`acked, b`dead
    {
      client.Shaped() && Polled(client.log, polledFrom, client.position, batch) &&
        Behind(client.log, polledFrom, b.Books())
    }

    /** The group's offsets have moved to the poll position. */
    ghost predicate Caught(before: seq<nat>)
      reads client`committed, client`position
    {
      && |before| == |client.position| == |client.log|
      && (forall p :: 0 <= p < |client.log| ==> client.position[p] <= |client.log[p]|)
      && client.committed == Advanced(client.log, before, client.position)
    }

    /** `failed` is what the processor returned, and k ends the prefix of the batch it settled. */
    method ProcessBatch() returns (err: Option<Error>, ghost failed: Option<Error>, ghost k: int)
      requires Safe() && InFlight()
      modifies this`batch, this`polledFrom, client`committed, client`audit, client`requests
      modifies processor
      modifies b`tried, b`accepted, b`acked, b`pushes, b`signals, b`ticks, b`dead, b`log
      ensures Safe() && old(b.ticks) <= b.ticks
      ensures old(processor.prepared) <= processor.prepared
      ensures err.None? ==> InFlight() && batch == []
      ensures err.None? && old(batch) != [] ==> Caught(old(client.committed))
      ensures old(batch) == [] ==> err.None? && client.requests == old(client.requests)
      ensures old(batch) != [] ==> Processed(old(batch), k, old(b.At()), old(b.Books()), old(b.ticks), failed)
      ensures old(batch) != [] ==> Reported(old(batch), k, failed, old(client.requests), client.requests, err)
      ensures err.Some? && failed.None? ==> client.committed == old(client.committed)
      ensures old(batch) != [] && failed.Some? ==>
        if k >= 0 && client.requests == old(client.requests) + [One(old(batch)[k], true)]
        then MovedTo(old(client.committed), client.committed, old(batch)[k])
        else client.committed == old(client.committed)
    {
      hide Processed, Caught, MovedTo, Polled, Covers, Behind, Ingestor.Outcome, Safe, InFlight, Cluster.Safe;
      failed, k := None, -1;
      if |batch| == 0 {
        return None, failed, k;
      }
      ghost var t0 := b.Books();
      WhatIsInFlight();
      var last;
      last, err, k := Process();
      failed := err;
      if err.Some? {
        CommitSettled(last, t0, k);
        StillSafe();
        batch := [];
        return;
      }
      err := CommitBatch(t0);
      StillSafe();
    }

    /** The processor settled the batch up to index k and returned this error, for a reason that
      * the answers since then give. */
    ghost predicate Processed(batch: seq<Record>, k: int, from: Position, t0: Totals, ticks0: nat, err: Option<Error>)
      reads b
    {
      && -1 <= k < |batch| && Ingestor.Outcome(batch, t0, b.Books(), k) && (err.None? ==> k == |batch| - 1)
      && if async
        then Ingestor.Ends(processor.cfg, b.answers, batch, from, b.At(),
                           Ingestor.SawDone(ticks0, b.ticks, b.cancelTick), err)
        else Ingestor.SyncEnds(processor.cfg, b.answers, batch, from, b.At(), err.Some?)
    }

    /** An error comes from a batch whose processing or whose commit failed. */
    ghost predicate StoppedBy(err: Error)
      reads b, client`requests
    {
      exists batch, k, from, t0, ticks0, failed, before ::
        && Processed(batch, k, from, t0, ticks0, failed)
        && Reported(batch, k, failed, before, client.requests, Some(err))
    }

    lemma WhatIsInFlight()
      requires Safe() && InFlight()
      ensures Ingestor.Distinct(batch) && processor.cfg.Accepted() && processor.EpisodesBalance() && processor.Routed()
      ensures client.Safe(b.Books()) && client.Shaped() && Behind(client.log, polledFrom, b.Books())
      ensures Polled(client.log, polledFrom, client.position, batch)
    {
      PolledIsDistinct(client.log, polledFrom, client.position, batch);
    }

    lemma StillSafe()
      requires client.Safe(b.Books()) && processor.cfg.Accepted() && processor.EpisodesBalance() && processor.Routed()
      ensures Safe()
    {
    }

    method Process() returns (last: Option<Record>, err: Option<Error>, ghost k: int)
      requires processor.cfg.Accepted() && processor.EpisodesBalance() && processor.Routed()
      requires Ingestor.Distinct(batch) && batch != []
      modifies processor, b`tried, b`accepted, b`acked, b`pushes, b`signals, b`ticks, b`dead, b`log
      ensures processor.EpisodesBalance() && processor.Routed()
      ensures old(b.ticks) <= b.ticks && old(processor.prepared) <= processor.prepared
      ensures -1 <= k < |batch| && Ingestor.Outcome(batch, old(b.Books()), b.Books(), k)
      ensures last == Ingestor.LastOf(batch, k) && (err.None? ==> k == |batch| - 1)
      ensures Processed(batch, k, old(b.At()), old(b.Books()), old(b.ticks), err)
    {
      hide Ingestor.Outcome, Ingestor.Ends, Ingestor.SyncEnds, Ingestor.KafkaMsgProcessor.Settles, Ingestor.Distinct;
      hide Ingestor.EachPreparedOnce, Ingestor.SawDone, Ingestor.KafkaMsgProcessor.Routed;
      ghost var t0 := b.Books();
      last, err := processor.ProcessBatch(async, batch, b);
      k := PrefixEnd(batch, t0, b.Books(), last, err, Ingestor.PushesWork(b.answers, old(b.pushes), b.pushes));
    }

    lemma PrefixEnd(batch: seq<Record>, t0: Totals, t: Totals, last: Option<Record>, err: Option<Error>, w: bool)
      returns (k: int)
      requires processor.Settles(batch, t0, t, last, err, w)
      ensures -1 <= k < |batch| && Ingestor.Outcome(batch, t0, t, k) && last == Ingestor.LastOf(batch, k)
      ensures err.None? ==> k == |batch| - 1
    {
      k :| Ingestor.Outcome(batch, t0, t, k) && last == Ingestor.LastOf(batch, k) && (err.None? ==> k == |batch| - 1);
    }

    lemma KeepSafe(t0: Totals, k: int)
      requires client.Safe(t0) && Ingestor.Outcome(batch, t0, b.Books(), k)
      ensures client.Safe(b.Books())
    {
      OutcomeGrew(batch, t0, b.Books(), k);
      GrewKeeps(client.log, t0, b.Books());
    }

    /** After an error: commits the end of the settled prefix, if there is one. */
    method CommitSettled(last: Option<Record>, ghost t0: Totals, ghost k: int)
      requires client.Safe(t0) && Behind(client.log, polledFrom, t0) &&
        Polled(client.log, polledFrom, client.position, batch)
      requires -1 <= k < |batch| && Ingestor.Outcome(batch, t0, b.Books(), k) && last == Ingestor.LastOf(batch, k)
      modifies client`committed, client`audit, client`requests
      ensures client.Safe(b.Books())
      ensures if k < 0 then client.requests == old(client.requests)
        else AskedFor(batch[k], old(client.requests), client.requests)
      ensures if k >= 0 && client.requests == old(client.requests) + [One(batch[k], true)]
        then MovedTo(old(client.committed), client.committed, batch[k])
        else client.committed == old(client.committed)
    {
      hide client.Safe, Behind, Polled, Ingestor.Outcome, MovedTo;
      if last.Some? {
        CommitPrefix(last.value, t0, k);
      } else {
        KeepSafe(t0, k);
      }
    }

    method CommitPrefix(last: Record, ghost t0: Totals, ghost k: int)
      requires client.Safe(t0) && Behind(client.log, polledFrom, t0) &&
        Polled(client.log, polledFrom, client.position, batch)
      requires -1 <= k < |batch| && Ingestor.Outcome(batch, t0, b.Books(), k) && Some(last) == Ingestor.LastOf(batch, k)
      modifies client`committed, client`audit, client`requests
      ensures client.Safe(b.Books())
      ensures AskedFor(last, old(client.requests), client.requests)
      ensures if client.requests == old(client.requests) + [One(last, true)]
        then MovedTo(old(client.committed), client.committed, last)
        else client.committed == old(client.committed)
    {
      hide Polled, Covers, Behind, Ingestor.Outcome;
      KeepSafe(t0, k);
      PartialBatch(client.log, polledFrom, client.position, batch, t0, b.Books(), k, client.committed);
      ghost var before := client.requests;
      var ok := client.CommitRecords(last, b);
      assert (before + [One(last, ok)])[|before|].accepted == ok;
    }

    method CommitBatch(ghost t0: Totals) returns (err: Option<Error>)
      requires client.Safe(t0) && Behind(client.log, polledFrom, t0) &&
        Polled(client.log, polledFrom, client.position, batch)
      requires client.Shaped() && Ingestor.Outcome(batch, t0, b.Books(), |batch| - 1)
      modifies this`batch, this`polledFrom, client`committed, client`audit, client`requests
      ensures client.Safe(b.Books())
      ensures err.None? ==> InFlight() && batch == []
      ensures err.None? ==> Caught(old(client.committed))
      ensures err.Some? ==> client.committed == old(client.committed)
      ensures client.requests == old(client.requests) + [All(err.None?)]
    {
      hide Polled, Behind, Ingestor.Outcome;
      KeepSafe(t0, |batch| - 1);
      WholeBatch(client.log, polledFrom, client.position, batch, t0, b.Books());
      CursorCommitIsSafeIff(client.log, client.committed, client.position, b.Books());
      var ok := client.CommitUncommittedOffsets(b);
      if !ok {
        return Some(Fatal(0));
      }
      batch, polledFrom, err := [], client.position, None;
      NothingPolled(client.log, client.position);
    }

    /** Polls; a cancelled poll drops what it fetched. */
    method FetchBatch() returns (canceled: bool)
      requires Safe() && InFlight() && batch == []
      modifies this`batch, this`polledFrom, client`position
      ensures Safe() && (if canceled then b.cancelTick <= b.ticks else InFlight())
    {
      hide Polled, Covers, Behind;
      PositionIsBehind(client.log, polledFrom, client.position, b.Books());
      polledFrom := client.position;
      var fetched;
      fetched, canceled := client.PollFetches(b);
      if !canceled {
        batch := fetched;
      }
    }

    /** Polls only with no batch in flight. */
    method HandleBatchMessages() returns (err: Option<Error>)
      requires Safe() && InFlight() && Going(history)
      modifies this`batch, this`polledFrom, this`history, processor
      modifies client`position, client`committed, client`audit, client`requests
      modifies b`tried, b`accepted, b`acked, b`pushes, b`signals, b`ticks, b`dead, b`log
      ensures Safe() && old(b.ticks) <= b.ticks && old(processor.prepared) <= processor.prepared
      ensures err.None? ==> InFlight() || b.cancelTick <= b.ticks
      ensures old(history) <= history && EndsAs(history, err) && (err.Some? ==> StoppedBy(err.value))
    {
      hide Orderly, Going, Safe, InFlight, Reported, Processed, Caught, MovedTo;
      KeepGoing(history, None);
      if |batch| > 0 {
        ghost var failed, k;
        err, failed, k := ProcessBatch();
        KeepGoing(history, err);
        history := Ended(history, err);
        return;
      }
      history := history + [Poll(batch)];
      var canceled := FetchBatch();
      if canceled {
        return None;
      }
      ghost var failed, k;
      err, failed, k := ProcessBatch();
      KeepGoing(history, err);
      history := Ended(history, err);
    }

    /** Runs until the context is done or the first error; nothing is polled after an error.
      * Over all the batches of the run the subjects were used evenly. */
    method ConsumeLoop() returns (err: Option<Error>)
      requires Safe() && InFlight() && Going(history)
      modifies this`batch, this`polledFrom, this`history, processor
      modifies client`position, client`committed, client`audit, client`requests
      modifies b`tried, b`accepted, b`acked, b`pushes, b`signals, b`ticks, b`dead, b`log
      ensures Safe() && old(history) <= history && EndsAs(history, err) && (err.Some? ==> StoppedBy(err.value))
      ensures err.None? ==> b.cancelTick < b.ticks
      ensures old(processor.prepared) <= processor.prepared
      ensures Ingestor.Fair(processor.cfg, processor.prepared[|old(processor.prepared)|..])
    {
      hide Orderly, Going, Safe, InFlight, Ingestor.Fair, StoppedBy;
      Fairly();
      KeepGoing(history, None);
      while true
        invariant Safe() && (InFlight() || b.cancelTick <= b.ticks) && Going(history) && Orderly(history)
        invariant old(history) <= history
        invariant old(processor.prepared) <= processor.prepared
        invariant Ingestor.Fair(processor.cfg, processor.prepared[|old(processor.prepared)|..])
        decreases b.cancelTick - b.ticks
      {
        var done := b.ContextIsDone();
        if done {
          return None;
        }
        err := HandleBatchMessages();
        Fairly();
        if err.Some? {
          return;
        }
      }
    }

    lemma Fairly()
      requires Safe()
      ensures forall lo :: 0 <= lo <= |processor.prepared| ==> Ingestor.Fair(processor.cfg, processor.prepared[lo..])
    {
      hide Ingestor.Fair;
      forall lo | 0 <= lo <= |processor.prepared| ensures Ingestor.Fair(processor.cfg, processor.prepared[lo..]) {
        Ingestor.RoundRobinIsFair(processor.cfg, processor.prepared, lo);
      }
    }
  }

  lemma NothingPolled(log: seq<seq<Record>>, position: seq<nat>)
    requires |position| == |log| && forall p :: 0 <= p < |log| ==> position[p] <= |log[p]|
    ensures Polled(log, position, position, [])
  {
  }

  lemma PositionIsBehind(log: seq<seq<Record>>, from: seq<nat>, to: seq<nat>, t: Totals)
    requires Behind(log, from, t) && Polled(log, from, to, [])
    ensures Behind(log, to, t)
  {
    forall p | 0 <= p < |log| ensures from[p] == to[p] {
      var i := from[p];
      assert i < |log[p]| ==> log[p][i] !in [];
    }
  }

  /** Any number of process lifetimes over one consumer group. Each starts a fresh processor at
    * the group's offsets and ends by cancellation or by the first error. A crash is a lifetime
    * in which every later call is refused, so it is covered too: at every commit ever made,
    * every record below the committed offsets was settled. */
  method Lifetimes(n: nat, cluster: Cluster, cfg: Ingestor.Config, b: Broker, async: bool)
    returns (results: seq<Option<Error>>, ghost histories: seq<seq<Step>>)
    requires cfg.Accepted() && cluster.Safe(b.Books())
    modifies cluster`position, cluster`committed, cluster`audit, cluster`requests
    modifies b`tried, b`accepted, b`acked, b`pushes, b`signals, b`ticks, b`cancelTick, b`dead, b`log
    ensures cluster.Safe(b.Books())
    ensures |results| == |histories| == n && forall i :: 0 <= i < n ==> EndsAs(histories[i], results[i])
  {
    hide Polled, Covers, Behind, EndsAs;
    results, histories := [], [];
    for i := 0 to n
      invariant cluster.Safe(b.Books())
      invariant |results| == |histories| == i && forall j :: 0 <= j < i ==> EndsAs(histories[j], results[j])
    {
      b.NewContext();
      cluster.Resume(b.Books());
      ShapedWhenBehind(cluster, b.Books());
      NothingPolled(cluster.log, cluster.position);
      var processor := new Ingestor.KafkaMsgProcessor(cfg);
      var consumer := new Consumer(cluster, processor, b, async);
      var err := consumer.ConsumeLoop();
      results, histories := results + [err], histories + [consumer.history];
    }
  }

  lemma ShapedWhenBehind(cluster: Cluster, t: Totals)
    requires Behind(cluster.log, cluster.position, t)
    ensures cluster.Shaped()
  {
  }
}
