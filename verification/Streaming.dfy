/** The streaming component: filter, deduplicate, transform, write under backpressure, then
  * commit the deduplication keys, and acknowledge last. */
module Streaming {
  import opened StreamingModel
  import opened Wrappers

  /** What all flushes of all lives of the process share: the saved deduplication keys, and
    * which keys ever reached the output stream or the dead-letter stream. */
  class World {
    var keys: set<string>
    ghost var reached: set<string>
    /** Some lookup or save failed. */
    ghost var troubled: bool

    constructor ()
      ensures Sound() && !troubled
    {
      keys, reached, troubled := {}, {}, false;
    }

    /** No saved key stands for a message that was never written anywhere. */
    ghost predicate Sound()
      reads this`keys, this`reached
    {
      keys <= reached
    }

    /** Whatever other flushes, expiry and earlier lives of the process do in between, given
      * that each of their steps keeps what each step below keeps. */
    method Interfere() returns (ghost expired: set<string>, ghost others: set<string>)
      requires Sound()
      modifies this`keys, this`reached
      ensures Sound() && old(reached) <= reached
      ensures keys == (old(keys) - expired) + others
    {
      var gone: set<string>, saved: set<string> := *, *;
      ghost var more: set<string> := *;
      reached := reached + saved + more;
      keys := (keys - gone) + saved;
      expired, others := gone, saved;
    }

    /** One read transaction: a message with a key that is already saved is a duplicate. */
    method FilterDuplicates(ms: seq<Message>) returns (r: Option<seq<Message>>, ghost duplicates: seq<Message>)
      requires Sound()
      modifies this
      ensures Sound() && old(reached) <= reached
      ensures troubled == (old(troubled) || r.None?)
      ensures r.Some? ==> multiset(ms) == multiset(r.value) + multiset(duplicates)
      ensures forall i :: 0 <= i < |duplicates| ==> duplicates[i].key != "" && duplicates[i].key in keys
      ensures r.Some? ==> forall i :: 0 <= i < |r.value| ==> r.value[i].key == "" || r.value[i].key !in keys
    {
      var _, _ := Interfere();
      var kept := [];
      duplicates := [];
      for i := 0 to |ms|
        invariant Sound() && old(reached) <= reached && troubled == old(troubled)
        invariant multiset(ms[..i]) == multiset(kept) + multiset(duplicates)
        invariant forall j :: 0 <= j < |duplicates| ==> duplicates[j].key != "" && duplicates[j].key in keys
        invariant forall j :: 0 <= j < |kept| ==> kept[j].key == "" || kept[j].key !in keys
      {
        assert ms[..i + 1] == ms[..i] + [ms[i]];
        var fails := *;
        if fails {
          troubled := true;
          return None, duplicates;
        }
        if ms[i].key == "" || ms[i].key !in keys {
          kept := kept + [ms[i]];
        } else {
          duplicates := duplicates + [ms[i]];
        }
      }
      assert ms[..|ms|] == ms;
      r := Some(kept);
    }

    /** One write transaction: all keys are saved or none. What had expired and what others
      * had saved by then does not depend on it. */
    method SaveKeys(ms: seq<Message>)
      returns (err: Option<Error>, ghost expired: set<string>, ghost others: set<string>)
      requires Sound()
      modifies this
      ensures old(reached) <= reached
      ensures troubled == (old(troubled) || err.Some?)
      ensures Reached(ms, old(reached)) ==> Sound()
      ensures keys == (old(keys) - expired) + others + (if err.None? then KeysOf(ms) else {})
    {
      expired, others := Interfere();
      err := None;
      var entries := {};
      for i := 0 to |ms|
        invariant entries == KeysOf(ms[..i])
      {
        var fails := *;
        if fails {
          var why := *;
          troubled := true;
          return Some(why), expired, others;
        }
        assert ms[..i + 1] == ms[..i] + [ms[i]];
        if ms[i].key != "" {
          entries := entries + {ms[i].key};
        }
      }
      assert ms[..|ms|] == ms;
      var fails := *;
      if fails {
        var why := *;
        troubled := true;
        return Some(why), expired, others;
      }
      keys := keys + entries;
    }
  }

  ghost function KeysOf(ms: seq<Message>): set<string> {
    set m | m in ms && m.key != "" :: m.key
  }

  ghost predicate Reached(ms: seq<Message>, reached: set<string>) {
    forall i :: 0 <= i < |ms| ==> ms[i].key == "" || ms[i].key in reached
  }

  /** What one flush did: the messages the writer and the dead-letter writer accepted, the
    * state of both when the first acknowledgement was requested, the acknowledgements and
    * the refusals. */
  class Ledger {
    ghost var written: multiset<Message>
    ghost var buried: multiset<Message>
    ghost var atAck: Option<(multiset<Message>, multiset<Message>)>
    ghost var acked: seq<Message>
    ghost var naks: seq<seq<Message>>
    /** What the writer refused for another reason than backpressure. */
    ghost var rejected: multiset<Message>
    /** Some dead-letter write or acknowledgement failed, or the context was found done. */
    ghost var troubled: bool
    /** How often the context may still be looked at before it is done at the latest. */
    var patience: nat

    constructor (patience: nat)
      ensures New() && this.patience == patience
    {
      written, buried, atAck, acked, naks := multiset{}, multiset{}, None, [], [];
      rejected, troubled, this.patience := multiset{}, false, patience;
    }

    /** Waits for a while, or until the context is done. */
    method ContextIsDone() returns (done: bool)
      modifies this`patience, this`troubled
      ensures troubled == (old(troubled) || done) && (!done ==> patience < old(patience))
    {
      done := *;
      if patience == 0 || done {
        troubled := true;
        return true;
      }
      patience := patience - 1;
    }

    ghost predicate New()
      reads this
    {
      written == buried == rejected == multiset{} && atAck == None && acked == [] && naks == [] && !troubled
    }

    /** Publishes a batch and collects the failures: those refused on the spot first, then
      * those whose acknowledgement failed. */
    method Publish(ms: seq<Message>) returns (failed: seq<FailedMessage>, ghost accepted: multiset<Message>)
      ensures multiset(ms) == accepted + multiset(MessagesOf(failed))
    {
      hide Spread;
      var pending: seq<Message> := [];
      failed, accepted := [], multiset{};
      NothingSpread();
      assert ms[..0] == [];
      for i := 0 to |ms|
        invariant Spread(ms[..i], accepted, pending, failed)
      {
        assert ms[..i + 1] == ms[..i] + [ms[i]];
        var refused: Option<Error> := *;
        if refused.Some? {
          SpreadFailed(ms[..i], accepted, pending, failed, FailedMessage(ms[i], refused.value));
          failed := failed + [FailedMessage(ms[i], refused.value)];
        } else {
          SpreadPending(ms[..i], accepted, pending, failed, ms[i]);
          pending := pending + [ms[i]];
        }
      }
      assert ms[..|ms|] == ms && pending[0..] == pending;
      for i := 0 to |pending|
        invariant Spread(ms, accepted, pending[i..], failed)
      {
        var m := pending[i];
        assert pending[i..] == [m] + pending[i + 1..];
        var nacked: Option<Error> := *;
        SpreadAnswered(ms, accepted, m, pending[i + 1..], failed, nacked);
        match nacked
        case Some(e) => failed := failed + [FailedMessage(m, e)];
        case None => accepted := accepted + multiset{m};
      }
      SpreadEnds(ms, accepted, pending[|pending|..], failed);
    }

    method WriteBatch(world: World, ms: seq<Message>) returns (failed: seq<FailedMessage>)
      requires world.Sound()
      modifies this`written, this`rejected, world`keys, world`reached
      ensures world.Sound() && old(world.reached) <= world.reached
      ensures rejected == old(rejected) + multiset(MessagesOf(Final(failed)))
      ensures written + multiset(MessagesOf(failed)) == old(written) + multiset(ms)
      ensures forall i :: 0 <= i < |ms| ==> ms[i].key in world.reached || ms[i] in MessagesOf(failed)
    {
      var _, _ := world.Interfere();
      ghost var accepted;
      failed, accepted := Publish(ms);
      rejected := rejected + multiset(MessagesOf(Final(failed)));
      written := written + accepted;
      world.reached := world.reached + set m | m in accepted :: m.key;
      AcceptedOrFailed(ms, accepted, failed);
    }

    /** A failed message as a dead-letter message, which may not be printable. */
    method Print(f: FailedMessage) returns (err: Option<Error>)
      modifies this`troubled
      ensures troubled == (old(troubled) || err.Some?)
    {
      err := *;
      troubled := troubled || err.Some?;
    }

    method WriteDlqBatch(world: World, ms: seq<Message>) returns (failed: seq<FailedMessage>)
      requires world.Sound()
      modifies this`buried, this`troubled, world`keys, world`reached
      ensures world.Sound() && old(world.reached) <= world.reached
      ensures troubled == (old(troubled) || failed != [])
      ensures buried + multiset(MessagesOf(failed)) == old(buried) + multiset(ms)
      ensures forall i :: 0 <= i < |ms| ==> ms[i].key in world.reached || ms[i] in MessagesOf(failed)
    {
      var _, _ := world.Interfere();
      ghost var accepted;
      failed, accepted := Publish(ms);
      troubled := troubled || failed != [];
      buried := buried + accepted;
      world.reached := world.reached + set m | m in accepted :: m.key;
      AcceptedOrFailed(ms, accepted, failed);
    }

    method Ack(batch: seq<Message>) returns (err: Option<Error>)
      modifies this`acked, this`atAck, this`troubled
      ensures troubled == (old(troubled) || err.Some?)
      ensures batch != [] ==> atAck == if old(atAck).Some? then old(atAck) else Some((written, buried))
      ensures err.None? ==> acked == old(acked) + batch
      ensures err.Some? ==> exists k :: 0 <= k < |batch| && acked == old(acked) + batch[..k]
    {
      for i := 0 to |batch|
        invariant acked == old(acked) + batch[..i] && troubled == old(troubled)
        invariant i > 0 ==> atAck == if old(atAck).Some? then old(atAck) else Some((written, buried))
        invariant i == 0 ==> atAck == old(atAck)
      {
        atAck := if atAck.Some? then atAck else Some((written, buried));
        err := *;
        if err.Some? {
          troubled := true;
          return;
        }
        assert batch[..i + 1] == batch[..i] + [batch[i]];
        acked := acked + [batch[i]];
      }
      assert batch[..|batch|] == batch;
      err := None;
    }

    /** Asks for redelivery of the whole batch; an error here is only logged. */
    method Nak(batch: seq<Message>)
      modifies this`naks
      ensures naks == old(naks) + [batch]
    {
      naks := naks + [batch];
    }
  }

  /** Where the messages of one write are: accepted, not yet answered, or failed. */
  ghost predicate Spread(ms: seq<Message>, accepted: multiset<Message>, pending: seq<Message>,
                         failed: seq<FailedMessage>) {
    multiset(ms) == accepted + multiset(pending) + multiset(MessagesOf(failed))
  }

  lemma NothingSpread()
    ensures Spread([], multiset{}, [], [])
  {
  }

  lemma SpreadFailed(ms: seq<Message>, accepted: multiset<Message>, pending: seq<Message>, failed: seq<FailedMessage>,
                     f: FailedMessage)
    requires Spread(ms, accepted, pending, failed)
    ensures Spread(ms + [f.message], accepted, pending, failed + [f])
  {
    FailedMore(failed, f.message, f.error);
  }

  lemma SpreadPending(ms: seq<Message>, accepted: multiset<Message>, pending: seq<Message>, failed: seq<FailedMessage>,
                      m: Message)
    requires Spread(ms, accepted, pending, failed)
    ensures Spread(ms + [m], accepted, pending + [m], failed)
  {
  }

  lemma SpreadAnswered(ms: seq<Message>, accepted: multiset<Message>, m: Message, rest: seq<Message>,
                       failed: seq<FailedMessage>, nacked: Option<Error>)
    requires Spread(ms, accepted, [m] + rest, failed)
    ensures nacked.None? ==> Spread(ms, accepted + multiset{m}, rest, failed)
    ensures nacked.Some? ==> Spread(ms, accepted, rest, failed + [FailedMessage(m, nacked.value)])
  {
    if nacked.Some? {
      FailedMore(failed, m, nacked.value);
    }
  }

  lemma SpreadEnds(ms: seq<Message>, accepted: multiset<Message>, pending: seq<Message>, failed: seq<FailedMessage>)
    requires pending == [] && Spread(ms, accepted, pending, failed)
    ensures multiset(ms) == accepted + multiset(MessagesOf(failed))
  {
  }

  lemma FailedMore(failed: seq<FailedMessage>, m: Message, e: Error)
    ensures MessagesOf(failed + [FailedMessage(m, e)]) == MessagesOf(failed) + [m]
  {
  }

  lemma AcceptedOrFailed(ms: seq<Message>, accepted: multiset<Message>, failed: seq<FailedMessage>)
    requires multiset(ms) == accepted + multiset(MessagesOf(failed))
    ensures forall i :: 0 <= i < |ms| ==> ms[i] in accepted || ms[i] in MessagesOf(failed)
  {
    forall i | 0 <= i < |ms| ensures ms[i] in accepted || ms[i] in MessagesOf(failed) {
      assert ms[i] in multiset(ms);
    }
  }

  /** The batch has come through the first `stage` stages. */
  ghost predicate Through(stage: nat, filter: Processor, transform: Processor, batch: seq<Message>,
                          unique: seq<Message>, duplicates: seq<Message>, messages: seq<Message>,
                          buried: multiset<Message>) {
    var passed, unfit := Select(batch, Filtering(filter), Passes), Select(batch, Filtering(filter), Fails);
    var surviving, rejected := Select(unique, Transforming(transform), Passes),
      Select(unique, Transforming(transform), Fails);
    match stage
    case 0 => messages == batch && buried == multiset{}
    case 1 => messages == passed && buried == multiset(unfit)
    case 2 => messages == unique && multiset(passed) == multiset(unique) + multiset(duplicates) &&
      buried == multiset(unfit)
    case _ => messages == Produced(transform, surviving) && multiset(passed) == multiset(unique) + multiset(duplicates)
              && buried == multiset(unfit) + multiset(rejected)
  }

  class StreamingComponent {
    const filter: Processor
    const dedup: Processor
    const transform: Processor
    const world: World
    var activeBackpressure: bool

    /** As it is wired: the dead-letter middleware around the filter and the transformation. */
    constructor (filter: Processor, dedup: Processor, transform: Processor, world: World)
      requires filter.Noop? || filter.Filter?
      requires dedup.Noop? || dedup.Dedup?
      requires transform.Noop? || transform.Transform?
      ensures this.world == world && Wired() && !activeBackpressure
      ensures this.filter == if filter.Noop? then Noop else DlqMiddleware(filter)
      ensures this.dedup == dedup
      ensures this.transform == if transform.Noop? then Noop else DlqMiddleware(transform)
    {
      var f := ChainProcessors([next => DlqMiddleware(next)], filter);
      var t := ChainProcessors([next => DlqMiddleware(next)], transform);
      this.filter, this.dedup, this.transform, this.world := f, dedup, t, world;
      activeBackpressure := false;
    }

    predicate Wired() {
      && (filter.Noop? || (filter.DlqMiddleware? && filter.next.Filter?))
      && (dedup.Noop? || dedup.Dedup?)
      && (transform.Noop? || (transform.DlqMiddleware? && transform.next.Transform?))
    }

    /** Maps each failed message to a dead-letter message and writes them; all or an error. */
    method WriteFailed(ledger: Ledger, failed: seq<FailedMessage>) returns (err: Option<Error>)
      requires world.Sound()
      modifies ledger`buried, ledger`troubled, world`keys, world`reached
      ensures world.Sound() && old(world.reached) <= world.reached
      ensures old(ledger.troubled) || err.Some? ==> ledger.troubled
      ensures err.None? ==>
        ledger.buried == old(ledger.buried) + multiset(MessagesOf(failed)) && Reached(MessagesOf(failed), world.reached)
    {
      var messages: seq<Message> := [];
      for i := 0 to |failed|
        invariant world.Sound() && world.reached == old(world.reached) && ledger.buried == old(ledger.buried) &&
          ledger.troubled == old(ledger.troubled)
        invariant messages == MessagesOf(failed[..i])
      {
        var unprintable := ledger.Print(failed[i]);
        if unprintable.Some? {
          return unprintable;
        }
        messages := messages + [failed[i].message];
      }
      assert failed[..|failed|] == failed;
      var rest := ledger.WriteDlqBatch(world, messages);
      if rest != [] {
        return Some(rest[0].error);
      }
      return None;
    }

    method FilterBatch(matches: Message -> Verdict, ms: seq<Message>)
      returns (messages: seq<Message>, failed: seq<FailedMessage>)
      ensures messages == Select(ms, matches, Passes)
      ensures MessagesOf(failed) == Select(ms, matches, Fails)
    {
      messages, failed := [], [];
      for i := 0 to |ms|
        invariant messages == Select(ms[..i], matches, Passes) && MessagesOf(failed) == Select(ms[..i], matches, Fails)
      {
        SelectNext(ms, matches, Passes, i);
        SelectNext(ms, matches, Fails, i);
        match matches(ms[i])
        case Fail(e) =>
          FailedMore(failed, ms[i], e);
          failed := failed + [FailedMessage(ms[i], e)];
        case Drop =>
        case Pass =>
          messages := messages + [ms[i]];
      }
      assert ms[..|ms|] == ms;
    }

    method TransformBatch(transform: Message -> Transformed, ms: seq<Message>)
      returns (fatal: bool, messages: seq<Message>, failed: seq<FailedMessage>)
      ensures fatal <==> exists i :: 0 <= i < |ms| && transform(ms[i]) == Transformed.Failed(SignalSent)
      ensures !fatal ==> messages == Outputs(Select(ms, Judge(transform), Passes), transform)
      ensures !fatal ==> var passing := Select(ms, Judge(transform), Passes);
        |messages| == |passing| && forall i :: 0 <= i < |passing| ==> Makes(transform, passing[i], messages[i])
      ensures !fatal ==> MessagesOf(failed) == Select(ms, Judge(transform), Fails)
    {
      fatal, messages, failed := false, [], [];
      hide Select, Outputs, Judge, Classify, Makes;
      PassingIsMade(ms, transform);
      OutputsAreMade(Select(ms, Judge(transform), Passes), transform);
      NothingSelected(transform);
      assert ms[..0] == [];
      for i := 0 to |ms|
        invariant forall j :: 0 <= j < i ==> transform(ms[j]) != Transformed.Failed(SignalSent)
        invariant messages == Outputs(Select(ms[..i], Judge(transform), Passes), transform)
        invariant MessagesOf(failed) == Select(ms[..i], Judge(transform), Fails)
      {
        SelectNext(ms, Judge(transform), Passes, i);
        SelectNext(ms, Judge(transform), Fails, i);
        JudgeKind(transform, ms[i]);
        match transform(ms[i])
        case Failed(e) =>
          if e == SignalSent {
            return true, [], [];
          }
          FailedMore(failed, ms[i], e);
          failed := failed + [FailedMessage(ms[i], e)];
        case Made(data) =>
          OutputsNext(Select(ms[..i], Judge(transform), Passes), ms[i], transform);
          messages := messages + [ms[i].(data := data)];
      }
      assert ms[..|ms|] == ms;
    }

    lemma NothingSelected(transform: Message -> Transformed)
      ensures Outputs(Select([], Judge(transform), Passes), transform) == [] &&
        Select([], Judge(transform), Fails) == []
    {
    }

    lemma JudgeKind(transform: Message -> Transformed, m: Message)
      ensures Classify(Judge(transform)(m)) == if transform(m).Made? then Passes else Fails
    {
    }

    lemma OutputsNext(ms: seq<Message>, m: Message, transform: Message -> Transformed)
      ensures Outputs(ms + [m], transform) == Outputs(ms, transform) + [Output(m, transform)]
    {
    }

    method Split(failed: seq<FailedMessage>) returns (backpressure: seq<FailedMessage>, fatal: seq<FailedMessage>)
      ensures IsSplit(failed, backpressure, fatal) && fatal == Final(failed)
      ensures forall i :: 0 <= i < |backpressure| ==> backpressure[i].error.Backpressure?
      ensures forall i :: 0 <= i < |fatal| ==> !fatal[i].error.Backpressure?
    {
      backpressure, fatal := [], [];
      for i := 0 to |failed|
        invariant IsSplit(failed[..i], backpressure, fatal) && fatal == Final(failed[..i])
        invariant forall j :: 0 <= j < |backpressure| ==> backpressure[j].error.Backpressure?
        invariant forall j :: 0 <= j < |fatal| ==> !fatal[j].error.Backpressure?
      {
        hide IsSplit;
        assert failed[..i + 1] == failed[..i] + [failed[i]];
        assert failed[..i + 1][..i] == failed[..i];
        SplitNext(failed[..i], backpressure, fatal, failed[i]);
        if failed[i].error.Backpressure? {
          backpressure := backpressure + [failed[i]];
        } else {
          fatal := fatal + [failed[i]];
        }
      }
      assert failed[..|failed|] == failed;
    }

    /** One write: what failed for good is dead-lettered, what met backpressure is left. */
    method WriteOnce(ledger: Ledger, messages: seq<Message>)
      returns (err: Option<Error>, left: seq<Message>, clean: bool, ghost hard: multiset<Message>)
      requires world.Sound()
      modifies ledger`written, ledger`buried, ledger`rejected, ledger`troubled, world`keys, world`reached
      ensures world.Sound() && old(world.reached) <= world.reached
      ensures old(ledger.troubled) || err.Some? ==> ledger.troubled
      ensures ledger.rejected == old(ledger.rejected) + hard
      ensures err.None? ==> Balanced(old(ledger.written), ledger.written, hard, messages, left)
      ensures err.None? ==> ledger.buried == old(ledger.buried) + hard
      ensures err.None? ==>
        forall i :: 0 <= i < |messages| ==>
          messages[i].key == "" || messages[i].key in world.reached || messages[i] in left
      ensures clean ==> err.None? && left == []
    {
      hard := multiset{};
      var failed := ledger.WriteBatch(world, messages);
      if failed == [] {
        return None, [], true, hard;
      }
      var backpressure, fatal := Split(failed);
      left, clean, hard := MessagesOf(backpressure), false, multiset(MessagesOf(fatal));
      FailedSplit(failed, backpressure, fatal);
      if fatal != [] {
        err := WriteFailed(ledger, fatal);
        if err.Some? {
          return;
        }
        ReachedKeys(MessagesOf(fatal), world.reached);
      }
      err := None;
    }

    /** Writes the batch; only what failed under backpressure is written again, other
      * failures are dead-lettered. `clean` says that the last write had no failure at all,
      * `waited` that there was an earlier one under backpressure: exactly then the recorded
      * backpressure episode is left open. */
    method WriteWithBackpressure(ledger: Ledger, upstream: seq<Message>, messages: seq<Message>)
      returns (err: Option<Error>, ghost hard: multiset<Message>, ghost clean: bool, ghost waited: bool)
      requires world.Sound()
      modifies this`activeBackpressure, ledger`written, ledger`buried, ledger`rejected, ledger`troubled
      modifies ledger`patience, world`keys, world`reached
      ensures world.Sound() && old(world.reached) <= world.reached
      ensures old(ledger.troubled) || err.Some? ==> ledger.troubled
      ensures ledger.rejected == old(ledger.rejected) + hard
      ensures err.None? ==> Balanced(old(ledger.written), ledger.written, hard, messages, [])
      ensures err.None? ==> ledger.buried == old(ledger.buried) + hard
      ensures err.None? ==> Reached(messages, world.reached)
      ensures err.None? ==> (activeBackpressure <==> clean && (old(activeBackpressure) || waited))
    {
      hide Balanced;
      var left := messages;
      hard, clean, waited := multiset{}, false, false;
      BalancedFirst(ledger.written, messages);
      while true
        invariant world.Sound() && old(world.reached) <= world.reached
        invariant (old(ledger.troubled) ==> ledger.troubled) && ledger.rejected == old(ledger.rejected) + hard
        invariant Balanced(old(ledger.written), ledger.written, hard, messages, left)
        invariant ledger.buried == old(ledger.buried) + hard
        invariant forall i :: 0 <= i < |messages| ==>
          messages[i].key == "" || messages[i].key in world.reached || messages[i] in left
        invariant activeBackpressure == (old(activeBackpressure) || waited)
        decreases ledger.patience
      {
        ghost var before, dead := ledger.written, multiset{};
        var rest, wholly;
        err, rest, wholly, dead := WriteOnce(ledger, left);
        if err.Some? {
          hard := hard + dead;
          return;
        }
        BalancedNext(old(ledger.written), before, ledger.written, hard, dead, messages, left, rest);
        hard, left := hard + dead, rest;
        if wholly {
          clean := true;
          return;
        }
        if left == [] {
          activeBackpressure := false;
          return;
        }
        activeBackpressure, waited := true, true;
        var done := ledger.ContextIsDone();
        if done {
          return Some(ContextDone), hard, clean, waited;
        }
      }
    }

    /** One stage. `duplicates` is what the deduplication dropped. */
    method Process(p: Processor, input: ProcessorBatch, ledger: Ledger)
      returns (out: ProcessorBatch, ghost duplicates: seq<Message>)
      requires world.Sound() && input.fatal == None
      modifies ledger`buried, ledger`troubled, world
      ensures world.Sound() && old(world.reached) <= world.reached
      ensures old(ledger.troubled) ==> ledger.troubled
      ensures old(world.troubled) ==> world.troubled
      ensures out.fatal.Some? ==> ledger.troubled || world.troubled || Signals(p, input.messages)
      ensures out.fatal.None? ==> Stage(p, input, out, duplicates, old(ledger.buried), ledger.buried, world.reached)
      decreases p
    {
      duplicates := [];
      match p
      case Noop =>
        out := input;
      case Filter(matches) =>
        var messages, failed := FilterBatch(matches, input.messages);
        out := ProcessorBatch(messages, failed, None, NoCommit);
      case Dedup =>
        var r;
        r, duplicates := world.FilterDuplicates(input.messages);
        if r.None? {
          var why := *;
          return ProcessorBatch([], [], Some(why), NoCommit), duplicates;
        }
        out := ProcessorBatch(r.value, [], None, SaveKeys(r.value));
      case Transform(transform) =>
        var fatal, messages, failed := TransformBatch(transform, input.messages);
        out := ProcessorBatch(messages, failed, if fatal then Some(SignalSent) else None, NoCommit);
      case DlqMiddleware(next) =>
        out, duplicates := Process(next, input, ledger);
        if out.failed != [] {
          label Before:
          var err := WriteFailed(ledger, out.failed);
          if err.Some? {
            return out.(fatal := err), duplicates;
          }
          out := out.(failed := []);
        }
    }

    /** All stages in order, stopping early when nothing is left. */
    method RunProcessors(ledger: Ledger, batch: seq<Message>)
      returns (err: Option<Error>, messages: seq<Message>, commits: seq<Commit>, ghost unique: seq<Message>,
               ghost duplicates: seq<Message>)
      requires Wired() && world.Sound() && ledger.buried == multiset{} && batch != []
      modifies ledger`buried, ledger`troubled, world
      ensures world.Sound() && old(world.reached) <= world.reached
      ensures old(ledger.troubled) ==> ledger.troubled
      ensures old(world.troubled) ==> world.troubled
      ensures err.Some? ==> ledger.troubled || world.troubled || Signals(transform, unique)
      ensures err.None? ==> Through(3, filter, transform, batch, unique, duplicates, messages, ledger.buried)
      ensures err.None? ==>
        Reached(duplicates, world.reached) && Reached(Select(unique, Transforming(transform), Fails), world.reached)
      ensures err.None? ==> forall i :: 0 <= i < |commits| ==> commits[i] == NoCommit || commits[i] == SaveKeys(unique)
      ensures err.None? && dedup.Dedup? && messages != [] ==> SaveKeys(unique) in commits
    {
      var current, processors := ProcessorBatch(batch, [], None, NoCommit), [filter, dedup, transform];
      err, commits, unique, duplicates := None, [], [], [];
      hide Through, Stage, Filtering, Transforming, Select;
      ThroughNothing(filter, transform, batch);
      var stage := 0;
      while stage < 3 && current.messages != []
        invariant stage <= 3 && world.Sound() && old(world.reached) <= world.reached
        invariant (old(ledger.troubled) ==> ledger.troubled) && (old(world.troubled) ==> world.troubled)
        invariant stage == 2 ==> current.messages == unique
        invariant current.fatal == None && current.failed == []
        invariant Through(stage, filter, transform, batch, unique, duplicates, current.messages, ledger.buried)
        invariant current.commit == NoCommit || (stage >= 2 && current.commit == SaveKeys(unique))
        invariant stage < 2 ==> unique == duplicates == []
        invariant Reached(duplicates, world.reached)
        invariant stage == 3 ==> Reached(Select(unique, Transforming(transform), Fails), world.reached)
        invariant forall i :: 0 <= i < |commits| ==>
          commits[i] == NoCommit || (stage >= 2 && commits[i] == SaveKeys(unique))
        invariant stage >= 2 && dedup.Dedup? ==> SaveKeys(unique) in commits
        decreases 3 - stage
      {
        var result;
        ghost var dropped, before := [], ledger.buried;
        result, dropped := Process(processors[stage], current, ledger);
        if result.fatal.Some? {
          return result.fatal, [], [], unique, duplicates;
        }
        if stage == 0 {
          FilterDone(filter, transform, batch, current, result, dropped, before, ledger.buried, world.reached);
        } else if stage == 1 {
          DedupDone(dedup, filter, transform, batch, current, result, dropped, before, ledger.buried, world.reached);
          unique, duplicates := result.messages, dropped;
        } else {
          TransformDone(filter, transform, batch, unique, duplicates, current, result, dropped, before,
            ledger.buried, world.reached);
        }
        commits, current, stage := commits + [result.commit], result, stage + 1;
      }
      messages := current.messages;
      if stage < 3 {
        NothingLeft(stage, filter, transform, batch, unique, duplicates, ledger.buried);
      }
    }

    /** Saves the keys of the messages that were written or dead-lettered by now. */
    method RunCommits(commits: seq<Commit>, ghost unique: seq<Message>) returns (err: Option<Error>)
      requires world.Sound() && Reached(unique, world.reached)
      requires forall i :: 0 <= i < |commits| ==> commits[i] == NoCommit || commits[i] == SaveKeys(unique)
      modifies world
      ensures world.Sound() && old(world.reached) <= world.reached
      ensures old(world.troubled) || err.Some? ==> world.troubled
      ensures err.None? && SaveKeys(unique) in commits ==> Reached(unique, world.keys)
    {
      hide Reached;
      for i := 0 to |commits|
        invariant world.Sound() && old(world.reached) <= world.reached && Reached(unique, world.reached)
        invariant old(world.troubled) ==> world.troubled
        invariant SaveKeys(unique) in commits[..i] ==> Reached(unique, world.keys)
      {
        assert commits[..i + 1] == commits[..i] + [commits[i]];
        if commits[i].SaveKeys? {
          ghost var before := world.reached;
          ghost var expired, others;
          err, expired, others := world.SaveKeys(commits[i].messages);
          StillReached(unique, before, world.reached);
          if err.Some? {
            return;
          }
          assert KeysOf(unique) <= world.keys;
          AllSaved(unique, world.keys);
        }
      }
      assert commits[..|commits|] == commits;
      err := None;
    }

    /** One flush. However it ends, an acknowledgement was requested only when every message
      * of the batch was accounted for, and every saved key belongs to a message that was
      * written or dead-lettered; an error means the whole batch is asked for again, and that a
      * dead-letter write, an acknowledgement or the key store failed, the context ended or the
      * transformation asked to stop: back-pressure or a rejected message alone never cause one. */
    method ProcessBatch(ledger: Ledger, batch: seq<Message>)
      returns (err: Option<Error>, ghost unique: seq<Message>, ghost duplicates: seq<Message>,
               ghost hard: multiset<Message>)
      requires Wired() && world.Sound() && ledger.New()
      modifies this`activeBackpressure, ledger, world
      ensures world.Sound() && old(world.reached) <= world.reached
      ensures err.Some? ==> ledger.naks == [batch]
      ensures err.None? ==> ledger.naks == [] && ledger.acked == batch && (batch != [] ==> ledger.atAck.Some?)
      ensures ledger.atAck.Some? ==>
        Conserved(filter, transform, batch, unique, duplicates, hard, ledger.atAck.value.0, ledger.atAck.value.1)
      ensures ledger.atAck.Some? ==>
        AllMade(transform, Select(unique, Transforming(transform), Passes), ledger.atAck.value.0 + hard)
      ensures ledger.atAck.Some? ==> Reached(duplicates, world.reached)
      ensures err.None? && dedup.Dedup? && ledger.written + hard != multiset{} ==> Reached(unique, world.keys)
      ensures err.None? ==> hard == ledger.rejected
      ensures err.Some? ==> ledger.troubled || world.troubled || Signals(transform, unique)
    {
      hide Through, Conserved, Reached, Balanced, Select, Transforming, Filtering, AllMade;
      unique, duplicates, hard := [], [], multiset{};
      if batch == [] {
        return None, unique, duplicates, hard;
      }
      var messages, commits;
      err, messages, commits, unique, duplicates := RunProcessors(ledger, batch);
      if err.Some? {
        ledger.Nak(batch);
        return;
      }
      if messages == [] {
        AllAccounted(filter, transform, batch, unique, duplicates, messages, ledger.buried, ledger.written,
          ledger.buried, hard);
        ConservedIsMade(filter, transform, batch, unique, duplicates, hard, ledger.written, ledger.buried);
        err := ledger.Ack(batch);
        if err.Some? {
          ledger.Nak(batch);
        }
        return;
      }
      ghost var buried, reached, clean, waited := ledger.buried, world.reached, false, false;
      err, hard, clean, waited := WriteWithBackpressure(ledger, batch, messages);
      if err.Some? {
        ledger.Nak(batch);
        return;
      }
      AllAccounted(filter, transform, batch, unique, duplicates, messages, buried, ledger.written, ledger.buried, hard);
      ConservedIsMade(filter, transform, batch, unique, duplicates, hard, ledger.written, ledger.buried);
      StillReached(Select(unique, Transforming(transform), Fails), reached, world.reached);
      StillReached(duplicates, reached, world.reached);
      UniqueReached(filter, transform, batch, unique, duplicates, messages, buried, world.reached);
      reached := world.reached;
      err := RunCommits(commits, unique);
      StillReached(duplicates, reached, world.reached);
      if err.Some? {
        ledger.Nak(batch);
        return;
      }
      err := ledger.Ack(batch);
      if err.Some? {
        ledger.Nak(batch);
      }
    }
  }

  /** Some message makes the transformation ask for the component to be stopped. */
  ghost predicate Signals(p: Processor, ms: seq<Message>) {
    match p
    case Transform(transform) => exists i :: 0 <= i < |ms| && transform(ms[i]) == Transformed.Failed(SignalSent)
    case DlqMiddleware(next) => Signals(next, ms)
    case _ => false
  }

  /** What one stage makes of a batch. */
  ghost predicate Stage(p: Processor, input: ProcessorBatch, out: ProcessorBatch, duplicates: seq<Message>,
                        before: multiset<Message>, after: multiset<Message>, reached: set<string>) {
    match p
    case Noop => out == input && after == before && duplicates == []
    case Filter(matches) =>
      && out.messages == Select(input.messages, matches, Passes) && out.commit == NoCommit && after == before
      && MessagesOf(out.failed) == Select(input.messages, matches, Fails) && duplicates == []
    case Dedup =>
      && multiset(input.messages) == multiset(out.messages) + multiset(duplicates) && after == before
      && Reached(duplicates, reached) && out.failed == [] && out.commit == SaveKeys(out.messages)
    case Transform(transform) =>
      && out.messages == Outputs(Select(input.messages, Judge(transform), Passes), transform) &&
        out.commit == NoCommit && after == before
      && MessagesOf(out.failed) == Select(input.messages, Judge(transform), Fails) && duplicates == []
    case DlqMiddleware(Filter(matches)) =>
      && out.messages == Select(input.messages, matches, Passes) && out.commit == NoCommit && out.failed == []
      && after == before + multiset(Select(input.messages, matches, Fails)) && duplicates == []
    case DlqMiddleware(Transform(transform)) =>
      && out.messages == Outputs(Select(input.messages, Judge(transform), Passes), transform) &&
        out.commit == NoCommit && out.failed == []
      && after == before + multiset(Select(input.messages, Judge(transform), Fails))
      && Reached(Select(input.messages, Judge(transform), Fails), reached) && duplicates == []
    case DlqMiddleware(_) => true
  }

  lemma StillReached(ms: seq<Message>, before: set<string>, after: set<string>)
    requires Reached(ms, before) && before <= after
    ensures Reached(ms, after)
  {
  }

  lemma AllSaved(ms: seq<Message>, keys: set<string>)
    requires KeysOf(ms) <= keys
    ensures Reached(ms, keys)
  {
    forall i | 0 <= i < |ms| && ms[i].key != "" ensures ms[i].key in keys {
      assert ms[i] in ms;
    }
  }

  lemma {:induction false} NeverDrops(p: Processor, ms: seq<Message>)
    ensures Select(ms, Transforming(p), Drops) == []
  {
    if ms != [] {
      NeverDrops(p, ms[..|ms| - 1]);
    }
  }

  lemma {:induction false} Selected(ms: seq<Message>, verdict: Message -> Verdict, m: Message)
    requires m in ms
    ensures m in Select(ms, verdict, Classify(verdict(m)))
  {
    var n := |ms| - 1;
    if ms[n] != m {
      assert m in ms[..n];
      Selected(ms[..n], verdict, m);
    }
  }

  /** Every message that got through deduplication was written or dead-lettered under its key. */
  lemma UniqueReached(filter: Processor, transform: Processor, batch: seq<Message>, unique: seq<Message>,
                      duplicates: seq<Message>, messages: seq<Message>, buried: multiset<Message>, reached: set<string>)
    requires Through(3, filter, transform, batch, unique, duplicates, messages, buried)
    requires Reached(messages, reached) && Reached(Select(unique, Transforming(transform), Fails), reached)
    ensures Reached(unique, reached)
  {
    var verdict := Transforming(transform);
    NeverDrops(transform, unique);
    forall i | 0 <= i < |unique| ensures unique[i].key == "" || unique[i].key in reached {
      Selected(unique, verdict, unique[i]);
      var group := Select(unique, verdict, Classify(verdict(unique[i])));
      var j :| 0 <= j < |group| && group[j] == unique[i];
      if Classify(verdict(unique[i])) == Passes {
        assert messages[j].key == unique[i].key;
      }
    }
  }

  /** After the write the batch is accounted for. */
  lemma AllAccounted(filter: Processor, transform: Processor, batch: seq<Message>, unique: seq<Message>,
                     duplicates: seq<Message>, messages: seq<Message>, buried: multiset<Message>,
                     written: multiset<Message>, after: multiset<Message>, hard: multiset<Message>)
    requires Through(3, filter, transform, batch, unique, duplicates, messages, buried)
    requires Balanced(multiset{}, written, hard, messages, []) && after == buried + hard
    ensures Conserved(filter, transform, batch, unique, duplicates, hard, written, after)
  {
    NeverDrops(transform, unique);
    assert written + hard == written + hard + multiset([]) == multiset{} + multiset(messages) == multiset(messages);
    SelectPartitions(batch, Filtering(filter));
    SelectPartitions(unique, Transforming(transform));
  }

  lemma ThroughNothing(filter: Processor, transform: Processor, batch: seq<Message>)
    ensures Through(0, filter, transform, batch, [], [], batch, multiset{}) && Reached([], {})
    ensures forall reached :: Reached([], reached)
  {
  }

  lemma FilterDone(p: Processor, transform: Processor, batch: seq<Message>, input: ProcessorBatch, out: ProcessorBatch,
                   dropped: seq<Message>, before: multiset<Message>, after: multiset<Message>, reached: set<string>)
    requires p.Noop? || (p.DlqMiddleware? && p.next.Filter?)
    requires Stage(p, input, out, dropped, before, after, reached) && input.failed == [] && input.commit == NoCommit
    requires Through(0, p, transform, batch, [], [], input.messages, before)
    ensures Through(1, p, transform, batch, [], [], out.messages, after)
    ensures out.failed == [] && out.commit == NoCommit
  {
    if p.Noop? {
      SelectAll(batch, Filtering(p));
    }
  }

  lemma DedupDone(p: Processor, filter: Processor, transform: Processor, batch: seq<Message>, input: ProcessorBatch,
                  out: ProcessorBatch, dropped: seq<Message>, before: multiset<Message>, after: multiset<Message>,
                  reached: set<string>)
    requires p.Noop? || p.Dedup?
    requires Stage(p, input, out, dropped, before, after, reached) && input.failed == [] && input.commit == NoCommit
    requires Through(1, filter, transform, batch, [], [], input.messages, before)
    ensures Through(2, filter, transform, batch, out.messages, dropped, out.messages, after)
    ensures Reached(dropped, reached) && out.failed == []
    ensures out.commit == if p.Dedup? then SaveKeys(out.messages) else NoCommit
  {
  }

  lemma TransformDone(filter: Processor, p: Processor, batch: seq<Message>, unique: seq<Message>,
                      duplicates: seq<Message>, input: ProcessorBatch, out: ProcessorBatch, dropped: seq<Message>,
                      before: multiset<Message>, after: multiset<Message>, reached: set<string>)
    requires p.Noop? || (p.DlqMiddleware? && p.next.Transform?)
    requires Stage(p, input, out, dropped, before, after, reached) && input.failed == []
    requires Through(2, filter, p, batch, unique, duplicates, input.messages, before)
    ensures Through(3, filter, p, batch, unique, duplicates, out.messages, after)
    ensures Reached(Select(unique, Transforming(p), Fails), reached) && out.failed == []
    ensures out.commit == NoCommit || out.commit == input.commit
  {
    if p.Noop? {
      SelectAll(unique, Transforming(p));
    }
  }

  /** When nothing is left the later stages have nothing to do. */
  lemma NothingLeft(stage: nat, filter: Processor, transform: Processor, batch: seq<Message>, unique: seq<Message>,
                    duplicates: seq<Message>, buried: multiset<Message>)
    requires stage < 3 && batch != [] && Through(stage, filter, transform, batch, unique, duplicates, [], buried)
    requires stage < 2 ==> unique == duplicates == []
    ensures Through(3, filter, transform, batch, unique, duplicates, [], buried)
    ensures forall reached :: Reached(Select(unique, Transforming(transform), Fails), reached)
  {
  }

  /** Of `messages`, what was accepted between two states, dead-lettered, and left. */
  ghost predicate Balanced(before: multiset<Message>, after: multiset<Message>, hard: multiset<Message>,
                           messages: seq<Message>, left: seq<Message>) {
    after + hard + multiset(left) == before + multiset(messages)
  }

  lemma BalancedFirst(before: multiset<Message>, messages: seq<Message>)
    ensures Balanced(before, before, multiset{}, messages, messages)
  {
  }

  lemma BalancedNext(first: multiset<Message>, before: multiset<Message>, after: multiset<Message>,
                     hard: multiset<Message>, dead: multiset<Message>, messages: seq<Message>, left: seq<Message>,
                     rest: seq<Message>)
    requires Balanced(first, before, hard, messages, left) && Balanced(before, after, dead, left, rest)
    ensures Balanced(first, after, hard + dead, messages, rest)
  {
    assert after + (hard + dead) + multiset(rest) == (after + dead + multiset(rest)) + hard;
    assert (before + multiset(left)) + hard == before + hard + multiset(left);
  }

  /** The failures for another reason than backpressure. */
  ghost function Final(failed: seq<FailedMessage>): (r: seq<FailedMessage>)
    ensures failed == [] ==> r == []
  {
    if failed == [] then []
    else
      var r, f := Final(failed[..|failed| - 1]), failed[|failed| - 1];
      if f.error.Backpressure? then r else r + [f]
  }

  ghost predicate IsSplit(failed: seq<FailedMessage>, backpressure: seq<FailedMessage>, fatal: seq<FailedMessage>) {
    multiset(MessagesOf(failed)) == multiset(MessagesOf(backpressure)) + multiset(MessagesOf(fatal))
  }

  lemma SplitNext(failed: seq<FailedMessage>, backpressure: seq<FailedMessage>, fatal: seq<FailedMessage>,
                  f: FailedMessage)
    requires IsSplit(failed, backpressure, fatal)
    ensures IsSplit(failed + [f], backpressure + [f], fatal) && IsSplit(failed + [f], backpressure, fatal + [f])
  {
    FailedMore(failed, f.message, f.error);
    FailedMore(backpressure, f.message, f.error);
    FailedMore(fatal, f.message, f.error);
  }

  lemma FailedSplit(failed: seq<FailedMessage>, backpressure: seq<FailedMessage>, fatal: seq<FailedMessage>)
    requires IsSplit(failed, backpressure, fatal)
    ensures forall m :: m in MessagesOf(failed) ==> m in MessagesOf(backpressure) || m in MessagesOf(fatal)
  {
    forall m | m in MessagesOf(failed) ensures m in MessagesOf(backpressure) || m in MessagesOf(fatal) {
      assert m in multiset(MessagesOf(failed));
    }
  }

  lemma ReachedKeys(ms: seq<Message>, reached: set<string>)
    requires Reached(ms, reached)
    ensures forall m :: m in ms ==> m.key == "" || m.key in reached
  {
  }
}
