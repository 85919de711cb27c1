/** The message buffer that the sink and the streaming component share the shape of: a
  * serial handler appends under a lock and flushes a full buffer, a ticker flushes too. */
module MessageBuffer {
  import opened Batches

  class Buffer<T> {
    const maxBatchSize: nat
    var messages: seq<T>
    ghost var extracted: seq<seq<T>>
    ghost var peak: nat

    constructor (maxBatchSize: nat)
      ensures this.maxBatchSize == maxBatchSize && messages == [] && extracted == [] && peak == 0
    {
      this.maxBatchSize := maxBatchSize;
      messages, extracted, peak := [], [], 0;
    }

    /** Everything that came in, in the order it went out or still waits. */
    ghost function History(): seq<T>
      reads this`messages, this`extracted
    {
      Flatten(extracted) + messages
    }

    ghost predicate Bounded()
      reads this`extracted, this`peak
    {
      peak <= maxBatchSize && forall k :: 0 <= k < |extracted| ==> 0 < |extracted[k]| <= maxBatchSize
    }

    lemma NothingYet()
      requires messages == [] && extracted == [] && peak == 0
      ensures Bounded() && History() == []
    {
    }

    lemma WhatIsHeld()
      ensures History() == Flatten(extracted) + messages
    {
    }

    /** The handler's locked section. */
    method Append(msg: T) returns (shouldFlush: bool)
      modifies this
      ensures messages == old(messages) + [msg] && extracted == old(extracted)
      ensures peak == if |messages| > old(peak) then |messages| else old(peak)
      ensures shouldFlush <==> |messages| >= maxBatchSize
      ensures History() == old(History()) + [msg]
      ensures old(Bounded()) && |messages| <= maxBatchSize ==> Bounded()
    {
      messages := messages + [msg];
      peak := if |messages| > peak then |messages| else peak;
      shouldFlush := |messages| >= maxBatchSize;
    }

    /** A flush's locked section: takes what there is, copied, and clears the buffer. */
    method Extract() returns (batch: seq<T>)
      modifies this
      ensures batch == old(messages) && messages == [] && peak == old(peak)
      ensures extracted == if batch == [] then old(extracted) else old(extracted) + [batch]
      ensures History() == old(History())
      ensures old(Bounded()) && |batch| <= maxBatchSize ==> Bounded()
    {
      batch := messages;
      if batch != [] {
        FlattenAppend(extracted, batch);
        messages, extracted := [], extracted + [batch];
      }
    }

    /** Any interleaving of the handler's appends and flushes with the ticker's flushes, cut
      * off at any point by the shutdown, which flushes once more. Between the handler's
      * append and its own flush the ticker may come first. The shutdown does not wait for a
      * handler that is running, so `late` messages may still come in after its flush. */
    method Run(arrivals: seq<T>) returns (handled: nat, ghost late: nat)
      requires maxBatchSize > 0 && messages == [] && extracted == [] && peak == 0
      modifies this
      ensures handled <= |arrivals| && |messages| <= late <= handled
      ensures Flatten(extracted) + messages == arrivals[..handled]
      ensures Bounded()
    {
      hide Bounded, History;
      NothingYet();
      var ticks: nat :| 0 <= ticks;
      var stopping, stopped, mustFlush := *, false, false;
      handled, late := 0, 0;
      while
        invariant handled <= |arrivals| && History() == arrivals[..handled] && Bounded()
        invariant |messages| <= maxBatchSize && (|messages| == maxBatchSize ==> mustFlush)
        invariant late <= handled && (stopped ==> |messages| <= late)
        decreases |arrivals| - handled, mustFlush, ticks, !stopped
      {
        case handled < |arrivals| && !mustFlush =>
          mustFlush := Append(arrivals[handled]);
          handled, stopping, late := handled + 1, *, if stopped then late + 1 else late;
        case mustFlush =>
          var _ := Extract();
          mustFlush, stopping := false, *;
        case ticks > 0 =>
          var _ := Extract();
          ticks, stopping := ticks - 1, *;
        case stopping && !stopped =>
          var _ := Extract();
          stopped, stopping := true, *;
        case stopping && stopped =>
          break;
      }
      if !stopped {
        var _ := Extract();
      }
      WhatIsHeld();
    }
  }
}
