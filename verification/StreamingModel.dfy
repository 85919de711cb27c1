/** What the filter, deduplication and transformation stages do to a batch, on values. */
module StreamingModel {
  import opened Wrappers

  type Bytes = seq<bv8>

  /** A stream message; `key` is its deduplication header, empty when there is none. */
  datatype Message = Message(id: nat, key: string, data: Bytes)

  datatype Error = Backpressure | SignalSent | ContextDone | Other(code: nat)

  datatype FailedMessage = FailedMessage(message: Message, error: Error)

  datatype Verdict = Pass | Drop | Fail(error: Error)

  datatype Transformed = Made(data: Bytes) | Failed(error: Error)

  /** The stages as they are wired: each may be switched off, and the dead-letter middleware
    * wraps a stage that can fail single messages. */
  datatype Processor =
    | Noop
    | Filter(matches: Message -> Verdict)
    | Dedup
    | Transform(transform: Message -> Transformed)
    | DlqMiddleware(next: Processor)

  datatype Commit = NoCommit | SaveKeys(messages: seq<Message>)

  datatype ProcessorBatch = ProcessorBatch(messages: seq<Message>, failed: seq<FailedMessage>, fatal: Option<Error>,
    commit: Commit)

  /** The order of the middlewares: the first one wraps outermost; a Noop stays bare. */
  method ChainProcessors(middlewares: seq<Processor -> Processor>, base: Processor) returns (p: Processor)
    ensures base.Noop? ==> p == base
    ensures !base.Noop? ==> p == Chained(middlewares, base)
  {
    if base.Noop? {
      return base;
    }
    p := base;
    for i := |middlewares| downto 0
      invariant p == Chained(middlewares[i..], base)
    {
      assert middlewares[i..] == [middlewares[i]] + middlewares[i + 1..];
      p := middlewares[i](p);
    }
    assert middlewares[0..] == middlewares;
  }

  function Chained(middlewares: seq<Processor -> Processor>, base: Processor): Processor {
    if middlewares == [] then base else middlewares[0](Chained(middlewares[1..], base))
  }

  function MessagesOf(failed: seq<FailedMessage>): (ms: seq<Message>)
    ensures |ms| == |failed| && forall i :: 0 <= i < |ms| ==> ms[i] == failed[i].message
  {
    seq(|failed|, i requires 0 <= i < |failed| => failed[i].message)
  }

  datatype Kind = Passes | Drops | Fails

  function Classify(v: Verdict): Kind {
    match v
    case Pass => Passes
    case Drop => Drops
    case Fail(_) => Fails
  }

  /** The messages of a batch on which a stage gives one kind of verdict, in order. */
  function Select(ms: seq<Message>, verdict: Message -> Verdict, kind: Kind): (r: seq<Message>) {
    if ms == [] then []
    else
      var r, m := Select(ms[..|ms| - 1], verdict, kind), ms[|ms| - 1];
      if Classify(verdict(m)) == kind then r + [m] else r
  }

  lemma SelectNext(ms: seq<Message>, verdict: Message -> Verdict, kind: Kind, i: nat)
    requires i < |ms|
    ensures Select(ms[..i + 1], verdict, kind)
         == if Classify(verdict(ms[i])) == kind then Select(ms[..i], verdict, kind) + [ms[i]]
           else Select(ms[..i], verdict, kind)
  {
    assert ms[..i + 1][..i] == ms[..i] && ms[..i + 1][i] == ms[i];
  }

  /** The three verdicts split a batch. */
  lemma {:induction false} SelectPartitions(ms: seq<Message>, verdict: Message -> Verdict)
    ensures multiset(ms) ==
      multiset(Select(ms, verdict, Passes)) + multiset(Select(ms, verdict, Drops)) + multiset(Select(ms, verdict,
        Fails))
  {
    if ms != [] {
      SelectPartitions(ms[..|ms| - 1], verdict);
      assert ms == ms[..|ms| - 1] + [ms[|ms| - 1]];
    }
  }

  lemma {:induction false} SelectAll(ms: seq<Message>, verdict: Message -> Verdict)
    requires forall m :: verdict(m) == Pass
    ensures Select(ms, verdict, Passes) == ms && Select(ms, verdict, Drops) == [] && Select(ms, verdict, Fails) == []
  {
    if ms != [] {
      SelectAll(ms[..|ms| - 1], verdict);
      assert ms == ms[..|ms| - 1] + [ms[|ms| - 1]];
    }
  }

  /** The filter stage as a verdict; a Noop passes everything. */
  ghost function Filtering(p: Processor): Message -> Verdict {
    if p.DlqMiddleware? && p.next.Filter? then p.next.matches else (m: Message) => Pass
  }

  function Judge(transform: Message -> Transformed): Message -> Verdict {
    (m: Message) => match transform(m)
      case Made(_) => Pass
      case Failed(e) => Fail(e)
  }

  /** The transformation stage as a verdict. */
  ghost function Transforming(p: Processor): Message -> Verdict {
    if p.DlqMiddleware? && p.next.Transform? then Judge(p.next.transform) else (m: Message) => Pass
  }

  /** What the transformation makes of one message: same header, other payload. */
  function Output(m: Message, transform: Message -> Transformed): Message {
    if transform(m).Made? then m.(data := transform(m).data) else m
  }

  function Outputs(ms: seq<Message>, transform: Message -> Transformed): (r: seq<Message>)
    ensures |r| == |ms| && forall i :: 0 <= i < |ms| ==> r[i] == Output(ms[i], transform)
  {
    seq(|ms|, i requires 0 <= i < |ms| => Output(ms[i], transform))
  }

  ghost function Produced(p: Processor, ms: seq<Message>): (r: seq<Message>)
    ensures |r| == |ms| && forall i :: 0 <= i < |ms| ==> r[i].id == ms[i].id && r[i].key == ms[i].key
  {
    if p.DlqMiddleware? && p.next.Transform? then Outputs(ms, p.next.transform) else ms
  }

  /** The transformation made `m` from `s`: its answer as the payload, the header unchanged. */
  predicate Makes(transform: Message -> Transformed, s: Message, m: Message) {
    m.id == s.id && m.key == s.key && transform(s) == Made(m.data)
  }

  /** What the last stage owes to a message that passes it; a Noop changes nothing. */
  ghost predicate MadeBy(p: Processor, s: Message, m: Message) {
    if p.DlqMiddleware? && p.next.Transform? then Makes(p.next.transform, s, m) else m == s
  }

  ghost predicate MadeFrom(p: Processor, sources: seq<Message>, ms: seq<Message>) {
    |ms| == |sources| && forall i :: 0 <= i < |ms| ==> MadeBy(p, sources[i], ms[i])
  }

  /** These are, in some order, one message made from each source. */
  ghost predicate AllMade(p: Processor, sources: seq<Message>, all: multiset<Message>) {
    exists ms :: MadeFrom(p, sources, ms) && multiset(ms) == all
  }

  lemma {:induction false} SelectedPass(ms: seq<Message>, verdict: Message -> Verdict, kind: Kind)
    ensures forall m :: m in Select(ms, verdict, kind) ==> m in ms && Classify(verdict(m)) == kind
  {
    if ms != [] {
      SelectedPass(ms[..|ms| - 1], verdict, kind);
    }
  }

  lemma PassingIsMade(ms: seq<Message>, transform: Message -> Transformed)
    ensures forall m :: m in Select(ms, Judge(transform), Passes) ==> transform(m).Made?
  {
    SelectedPass(ms, Judge(transform), Passes);
  }

  /** Messages that the transformation succeeds on give one output each, made of them. */
  lemma OutputsAreMade(ms: seq<Message>, transform: Message -> Transformed)
    requires forall m :: m in ms ==> transform(m).Made?
    ensures |Outputs(ms, transform)| == |ms|
    ensures forall i :: 0 <= i < |ms| ==> Makes(transform, ms[i], Outputs(ms, transform)[i])
  {
    forall i | 0 <= i < |ms| ensures Makes(transform, ms[i], Outputs(ms, transform)[i]) {
      assert ms[i] in ms;
    }
  }

  lemma ConservedIsMade(filter: Processor, transform: Processor, batch: seq<Message>, unique: seq<Message>,
                        duplicates: seq<Message>, hard: multiset<Message>, written: multiset<Message>,
                        buried: multiset<Message>)
    requires Conserved(filter, transform, batch, unique, duplicates, hard, written, buried)
    ensures AllMade(transform, Select(unique, Transforming(transform), Passes), written + hard)
  {
    hide Select;
    var surviving := Select(unique, Transforming(transform), Passes);
    var produced := Produced(transform, surviving);
    if transform.DlqMiddleware? && transform.next.Transform? {
      var t := transform.next.transform;
      PassingIsMade(unique, t);
      OutputsAreMade(surviving, t);
    }
    assert MadeFrom(transform, surviving, produced);
  }

  /** Every message of the batch was filtered out, dead-lettered by a stage, recognised as a
    * duplicate, or came out of the last stage; and what came out was either accepted by the
    * writer or dead-lettered, each exactly once. */
  ghost predicate Conserved(filter: Processor, transform: Processor, batch: seq<Message>, unique: seq<Message>,
                            duplicates: seq<Message>, hard: multiset<Message>, written: multiset<Message>,
                            buried: multiset<Message>) {
    var rejected := Select(unique, Transforming(transform), Fails);
    var surviving := Select(unique, Transforming(transform), Passes);
    var unfit := Select(batch, Filtering(filter), Fails);
    && multiset(batch) ==
      multiset(Select(batch, Filtering(filter),
        Drops)) + multiset(unfit) + multiset(duplicates) + multiset(rejected) + multiset(surviving)
    && written + hard == multiset(Produced(transform, surviving))
    && buried == multiset(unfit) + multiset(rejected) + hard
  }
}
