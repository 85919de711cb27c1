/** The outside world as the ingestor sees it: the NATS stream it publishes to, the
  * dead-letter stream, the component-signal publisher and the run's context.
  *
  * Every answer is read from an arbitrary but fixed answer sheet, so a theorem about all
  * sheets is a theorem about every behaviour of those services. */
module Stream {
  import opened Wrappers

  type Bytes = seq<bv8>

  datatype Error =
    | Backpressure
    | ContextDone
    | Fatal(code: nat)
    | Joined(first: Error, second: Error)

  /** errors.Is looks through joined errors. */
  predicate IsBackpressureErr(e: Error) {
    match e
    case Backpressure => true
    case Joined(a, b) => IsBackpressureErr(a) || IsBackpressureErr(b)
    case _ => false
  }

  predicate IsCtxErr(e: Error) {
    match e
    case ContextDone => true
    case Joined(a, b) => IsCtxErr(a) || IsCtxErr(b)
    case _ => false
  }

  /** The plain errors that an error is joined from. */
  function Leaves(e: Error): set<Error> {
    match e
    case Joined(a, b) => Leaves(a) + Leaves(b)
    case _ => {e}
  }

  /** An error throttles exactly when back-pressure is among what it is joined from, and is a
    * cancellation exactly when the end of the context is. */
  lemma {:induction false} LooksThrough(e: Error)
    ensures IsBackpressureErr(e) <==> Backpressure in Leaves(e)
    ensures IsCtxErr(e) <==> ContextDone in Leaves(e)
  {
    if e.Joined? {
      LooksThrough(e.first);
      LooksThrough(e.second);
    }
  }

  datatype Record = Record(partition: nat, offset: nat, value: Bytes)

  datatype Subject = Output | Numbered(index: nat) | DedupNumbered(index: nat)

  /** A prepared NATS message; `origin` is the Kafka record it was made from. */
  datatype Message = Message(origin: Record, subject: Subject, version: string, dedupKey: string, data: Bytes)

  /** What becomes of one publish call: refused on the spot, or accepted and later
    * positively or negatively acknowledged. */
  datatype PublishAnswer = Refused(err: Error) | Acked | Nacked(err: Error)

  datatype Answers = Answers(
    publish: nat -> PublishAnswer,
    dlq: nat -> Option<Error>,
    signal: nat -> Option<Error>)

  datatype Event = Published(msg: Message) | Buried(record: Record)

  /** How often each record was accepted by the stream, acknowledged, and dead-lettered. */
  datatype Totals = Totals(accepted: multiset<Record>, acked: multiset<Record>, dead: multiset<Record>)

  /** How far the answer sheet is used, and what was dead-lettered: call number k of the
    * publishes was for the record `tried[k]`. */
  datatype Position = Position(tried: seq<Record>, pushes: nat, signals: nat, dead: multiset<Record>)

  class Broker {
    const answers: Answers
    var tried: seq<Record>
    var pushes: nat
    var signals: nat
    var ticks: nat
    var cancelTick: nat
    ghost var log: seq<Event>
    ghost var accepted: multiset<Record>
    ghost var acked: multiset<Record>
    ghost var dead: multiset<Record>

    constructor (answers: Answers, cancelTick: nat)
      ensures this.answers == answers && this.cancelTick == cancelTick
      ensures pushes == signals == ticks == 0
      ensures tried == [] && log == [] && accepted == acked == dead == multiset{}
    {
      this.answers, this.cancelTick := answers, cancelTick;
      tried, pushes, signals, ticks := [], 0, 0, 0;
      log, accepted, acked, dead := [], multiset{}, multiset{}, multiset{};
    }

    ghost function Books(): Totals
      reads this`accepted, this`acked, this`dead
    {
      Totals(accepted, acked, dead)
    }

    ghost function At(): Position
      reads this`tried, this`pushes, this`signals, this`dead
    {
      Position(tried, pushes, signals, dead)
    }

    method PublishAsync(msg: Message) returns (a: PublishAnswer)
      modifies this`tried, this`accepted, this`log
      ensures a == answers.publish(|old(tried)|) && tried == old(tried) + [msg.origin]
      ensures a.Refused? ==> accepted == old(accepted) && log == old(log)
      ensures !a.Refused? ==> accepted == old(accepted) + multiset{msg.origin} && log == old(log) + [Published(msg)]
    {
      a := answers.publish(|tried|);
      tried := tried + [msg.origin];
      if !a.Refused? {
        accepted, log := accepted + multiset{msg.origin}, log + [Published(msg)];
      }
    }

    /** Waits for the acknowledgement of an accepted publish. */
    method Await(record: Record, a: PublishAnswer) returns (err: Option<Error>)
      requires !a.Refused?
      modifies this`acked
      ensures a.Acked? ==> err == None && acked == old(acked) + multiset{record}
      ensures a.Nacked? ==> err == Some(a.err) && acked == old(acked)
    {
      match a
      case Acked => err, acked := None, acked + multiset{record};
      case Nacked(e) => err := Some(e);
    }

    /** The blocking publish: returns nil only once the message was acknowledged. */
    method PublishUntilAck(msg: Message) returns (err: Option<Error>)
      modifies this`tried, this`accepted, this`acked, this`log
      ensures tried == old(tried) + [msg.origin]
      ensures err.None? <==> answers.publish(|old(tried)|).Acked?
      ensures err.Some? ==> accepted == old(accepted) && acked == old(acked) && log == old(log)
      ensures err.None? ==> accepted == old(accepted) + multiset{msg.origin}
      ensures err.None? ==> acked == old(acked) + multiset{msg.origin} && log == old(log) + [Published(msg)]
    {
      var a := answers.publish(|tried|);
      tried := tried + [msg.origin];
      if a.Acked? {
        accepted, acked := accepted + multiset{msg.origin}, acked + multiset{msg.origin};
        log, err := log + [Published(msg)], None;
      } else {
        err := Some(a.err);
      }
    }

    method PushToDlq(record: Record) returns (err: Option<Error>)
      modifies this`pushes, this`dead, this`log
      ensures err == answers.dlq(old(pushes)) && pushes == old(pushes) + 1
      ensures err.Some? ==> dead == old(dead) && log == old(log)
      ensures err.None? ==> dead == old(dead) + multiset{record} && log == old(log) + [Buried(record)]
    {
      err := answers.dlq(pushes);
      pushes := pushes + 1;
      if err.None? {
        dead, log := dead + multiset{record}, log + [Buried(record)];
      }
    }

    method SendSignal() returns (err: Option<Error>)
      modifies this`signals
      ensures err == answers.signal(old(signals)) && signals == old(signals) + 1
    {
      err := answers.signal(signals);
      signals := signals + 1;
    }

    /** One look at the context: done from look number `cancelTick` on. */
    method ContextIsDone() returns (done: bool)
      modifies this`ticks
      ensures done == (cancelTick <= old(ticks)) && ticks == old(ticks) + 1
    {
      done := cancelTick <= ticks;
      ticks := ticks + 1;
    }

    /** A restarted process gets a context of its own, cancelled whenever it pleases. */
    method NewContext()
      modifies this`ticks, this`cancelTick
    {
      ticks, cancelTick := 0, *;
    }
  }
}
