module Ingestor {
  import opened Stream
  import opened Wrappers
  import opened Batches

  datatype Verdict = Valid(version: string) | Incompatible(err: Error) | Invalid

  /** The processor's constant configuration; schema registry and key lookup are oracles. */
  datatype Config = Config(
    external: bool,
    verdict: Bytes -> Verdict,
    dedup: bool,
    dedupKey: (string, Bytes) -> Option<string>,
    hash: string -> nat,
    dedupSubjects: nat,
    subjects: int)
  {
    /** What NewKafkaMsgProcessor insists on. */
    predicate Accepted() {
      dedup ==> dedupSubjects > 0
    }

    /** External payloads carry a five byte version prefix; a shorter one never validates. */
    function Validate(value: Bytes): (v: Verdict)
      ensures v.Valid? && external ==> |value| >= 5
    {
      if external && |value| < 5 then Invalid else verdict(value)
    }
  }

  /** How far the processor's own counters and the broker's answer sheet have been used. */
  datatype Counters = Counters(round: nat, pushes: nat, signals: nat)

  datatype Prepared = Ready(msg: Message) | Diverted | Rejected(err: Error)

  function Divert(answers: Answers, c: Counters): (Prepared, Counters) {
    (match answers.dlq(c.pushes) case None => Diverted case Some(e) => Rejected(e), c.(pushes := c.pushes + 1))
  }

  function NextSubject(cfg: Config, round: nat): (Subject, nat) {
    if cfg.subjects <= 1 then (Output, round) else (Numbered(round % cfg.subjects), round + 1)
  }

  function DedupSubject(cfg: Config, key: string): Subject
    requires cfg.Accepted() && cfg.dedup
  {
    if cfg.dedupSubjects == 1 then Output else DedupNumbered(cfg.hash(key) % cfg.dedupSubjects)
  }

  /** What preparing one record does, as a function of the answer sheet. */
  function Prepare(cfg: Config, answers: Answers, rec: Record, c: Counters): (Prepared, Counters)
    requires cfg.Accepted()
  {
    match cfg.Validate(rec.value)
    case Incompatible(e) =>
      (Rejected(match answers.signal(c.signals) case Some(s) => s case None => e), c.(signals := c.signals + 1))
    case Invalid => Divert(answers, c)
    case Valid(version) =>
      var data := if cfg.external then rec.value[5..] else rec.value;
      if !cfg.dedup then
        var (subject, round) := NextSubject(cfg, c.round);
        (Ready(Message(rec, subject, version, "", data)), c.(round := round))
      else
        match cfg.dedupKey(version, data)
        case None => Divert(answers, c)
        case Some(key) => (Ready(Message(rec, DedupSubject(cfg, key), version, key, data)), c)
  }

  /** The run in which every publish is accepted and acknowledged at once: prepare and
    * publish record after record, stopping at the first one that cannot be prepared. */
  datatype Run = Run(log: seq<Event>, done: nat, err: Option<Error>, counters: Counters)

  function RunTo(cfg: Config, answers: Answers, batch: seq<Record>, n: nat, c: Counters): (run: Run)
    requires cfg.Accepted() && n <= |batch|
    ensures run.done <= n && (run.err == None <==> run.done == n)
  {
    if n == 0 then Run([], 0, None, c) else
    var run := RunTo(cfg, answers, batch, n - 1, c);
    if run.err.Some? then run else
    var rec := batch[n - 1];
    match Prepare(cfg, answers, rec, run.counters)
    case (Rejected(e), c') => Run(run.log, n - 1, Some(e), c')
    case (Diverted, c') => Run(run.log + [Buried(rec)], n, None, c')
    case (Ready(msg), c') => Run(run.log + [Published(msg)], n, None, c')
  }

  lemma {:induction false} RunStopsAtTheFirstFailure(cfg: Config, answers: Answers, batch: seq<Record>, m: nat, n: nat,
                                                     c: Counters)
    requires cfg.Accepted() && m <= n <= |batch|
    requires RunTo(cfg, answers, batch, m, c).err.Some?
    ensures RunTo(cfg, answers, batch, n, c) == RunTo(cfg, answers, batch, m, c)
  {
    if m < n {
      RunStopsAtTheFirstFailure(cfg, answers, batch, m, n - 1, c);
    }
  }

  /** Every publish is accepted and acknowledged the first time. */
  ghost predicate AllAcked(answers: Answers) {
    forall k :: answers.publish(k).Acked?
  }

  /** No dead-letter push with a number in this range is refused. */
  ghost predicate PushesWork(answers: Answers, lo: nat, hi: nat) {
    forall k :: lo <= k < hi ==> answers.dlq(k).None?
  }

  ghost predicate Distinct(batch: seq<Record>) {
    forall i, j :: 0 <= i < j < |batch| ==> batch[i] != batch[j]
  }

  /** The books of one call: since `t0` every completed record was settled exactly once, every
    * other record not at all, nothing from the cursor on was accepted by the stream, and no
    * record outside the batch was touched. */
  ghost predicate Ledger(batch: seq<Record>, completed: seq<bool>, cursor: nat, t0: Totals, t: Totals) {
    && |completed| == |batch|
    && (forall i :: 0 <= i < |batch| ==> SettledTimes(batch[i], t0, t, if completed[i] then 1 else 0))
    && (forall i :: cursor <= i < |batch| ==> t.accepted[batch[i]] == t0.accepted[batch[i]])
    && (forall r :: r !in batch ==> SettledTimes(r, t0, t, 0) && t.accepted[r] == t0.accepted[r])
  }

  /** `r` was acknowledged or dead-lettered `n` times between the two totals. */
  ghost predicate SettledTimes(r: Record, t0: Totals, t: Totals, n: nat) {
    t0.acked[r] <= t.acked[r] && t0.dead[r] <= t.dead[r] && t.acked[r] + t.dead[r] == t0.acked[r] + t0.dead[r] + n
  }

  lemma LedgerSettles(batch: seq<Record>, completed: seq<bool>, cursor: nat, cursor': nat, t0: Totals, t: Totals,
                      i: nat, byDlq: bool)
    requires Distinct(batch) && Ledger(batch, completed, cursor, t0, t)
    requires cursor <= cursor' && i < |batch| && !completed[i]
    ensures Ledger(batch, completed[i := true], cursor', t0,
                   if byDlq then t.(dead := t.dead + multiset{batch[i]}) else t.(acked := t.acked + multiset{batch[i]}))
  {
  }

  lemma LedgerPublishes(batch: seq<Record>, completed: seq<bool>, cursor: nat, cursor': nat, t0: Totals, t: Totals,
                        i: nat)
    requires Distinct(batch) && Ledger(batch, completed, cursor, t0, t)
    requires cursor <= cursor' && i < cursor' && i < |batch|
    ensures Ledger(batch, completed, cursor', t0, t.(accepted := t.accepted + multiset{batch[i]}))
  {
  }

  lemma LedgerAdvances(batch: seq<Record>, completed: seq<bool>, cursor: nat, cursor': nat, t0: Totals, t: Totals)
    requires Ledger(batch, completed, cursor, t0, t) && cursor <= cursor'
    ensures Ledger(batch, completed, cursor', t0, t)
  {
  }

  /** Whatever was published since `log0` is some record's one cached message. */
  ghost predicate Traceable(cached: seq<Option<Message>>, log0: seq<Event>, log: seq<Event>) {
    && log0 <= log
    && (forall k :: |log0| <= k < |log| && log[k].Published? ==> Some(log[k].msg) in cached)
  }

  lemma TraceablePublish(cached: seq<Option<Message>>, log0: seq<Event>, log: seq<Event>, i: nat)
    requires Traceable(cached, log0, log) && i < |cached| && cached[i].Some?
    ensures Traceable(cached, log0, log + [Published(cached[i].value)])
  {
  }

  lemma TraceableBury(cached: seq<Option<Message>>, log0: seq<Event>, log: seq<Event>, r: Record)
    requires Traceable(cached, log0, log)
    ensures Traceable(cached, log0, log + [Buried(r)])
  {
  }

  lemma TraceableCache(cached: seq<Option<Message>>, log0: seq<Event>, log: seq<Event>, i: nat, msg: Message)
    requires Traceable(cached, log0, log) && i < |cached| && cached[i].None?
    ensures Traceable(cached[i := Some(msg)], log0, log)
  {
    forall k | |log0| <= k < |log| && log[k].Published? ensures Some(log[k].msg) in cached[i := Some(msg)] {
      var j :| 0 <= j < |cached| && cached[j] == Some(log[k].msg);
      assert cached[i := Some(msg)][j] == cached[j];
    }
  }

  /** The messages of one call: one for each record that has a cached message, in the order in
    * which they were prepared. */
  ghost predicate PreparedOnce(cached: seq<Option<Message>>, made: seq<Message>) {
    && (forall k :: 0 <= k < |made| ==> Some(made[k]) in cached)
    && (forall j, k :: 0 <= j < k < |made| ==> made[j].origin != made[k].origin)
    && (forall i :: 0 <= i < |cached| && cached[i].Some? ==> cached[i].value in made)
  }

  lemma PreparedNext(batch: seq<Record>, cached: seq<Option<Message>>, made: seq<Message>, i: nat, msg: Message)
    requires PreparedOnce(cached, made) && Distinct(batch) && |cached| == |batch|
    requires forall j :: 0 <= j < |cached| && cached[j].Some? ==> cached[j].value.origin == batch[j]
    requires i < |cached| && cached[i].None? && msg.origin == batch[i]
    ensures PreparedOnce(cached[i := Some(msg)], made + [msg])
  {
    var cached', made' := cached[i := Some(msg)], made + [msg];
    forall k | 0 <= k < |made| ensures Some(made[k]) in cached' && made[k].origin != msg.origin {
      var j :| 0 <= j < |cached| && cached[j] == Some(made[k]);
      assert cached'[j] == cached[j];
    }
    assert cached'[i] == Some(msg) && made'[|made|] == msg;
    forall j | 0 <= j < |cached'| && cached'[j].Some? ensures cached'[j].value in made' {
      if j != i {
        assert cached[j].value in made;
      }
    }
  }

  /** `made` holds one message for each record that was prepared since `log0`, none twice and
    * each as its record calls for, and whatever was published since is one of them. */
  ghost predicate EachPreparedOnce(cfg: Config, batch: seq<Record>, log0: seq<Event>, log: seq<Event>,
                                   made: seq<Message>) {
    && (forall k :: 0 <= k < |made| ==> made[k].origin in batch && MadeOf(cfg, made[k]))
    && (forall j, k :: 0 <= j < k < |made| ==> made[j].origin != made[k].origin)
    && log0 <= log
    && (forall k :: |log0| <= k < |log| && log[k].Published? ==> log[k].msg in made)
  }

  /** Without deduplication and with several subjects, the messages took them in turn. */
  ghost predicate RoundRobin(cfg: Config, ms: seq<Message>) {
    !cfg.dedup && cfg.subjects > 1 ==> forall k :: 0 <= k < |ms| ==> ms[k].subject == Numbered(k % cfg.subjects)
  }

  // ----- Why a call ends -----

  /** An external payload travels without its five byte prefix. */
  function Payload(cfg: Config, rec: Record): Bytes
    requires cfg.external ==> |rec.value| >= 5
  {
    if cfg.external then rec.value[5..] else rec.value
  }

  /** The record does not fit its schema, which is an error of the whole pipeline. */
  predicate Misfit(cfg: Config, rec: Record) {
    cfg.Validate(rec.value).Incompatible?
  }

  /** No message can be made of the record. */
  predicate Unpublishable(cfg: Config, rec: Record) {
    var v := cfg.Validate(rec.value);
    v.Invalid? || (v.Valid? && cfg.dedup && cfg.dedupKey(v.version, Payload(cfg, rec)).None?)
  }

  /** What a message owes its record: the version its value validates for, the payload and,
    * with deduplication, the key of the payload and a subject that the key alone decides. */
  predicate MadeOf(cfg: Config, m: Message) {
    && cfg.Validate(m.origin.value) == Valid(m.version) && m.data == Payload(cfg, m.origin)
    && (cfg.dedup ==> cfg.dedupKey(m.version, m.data) == Some(m.dedupKey) && cfg.dedupSubjects > 0)
    && (cfg.dedup && cfg.dedupSubjects > 1 ==> m.subject == DedupNumbered(cfg.hash(m.dedupKey) % cfg.dedupSubjects))
    && (cfg.dedup && cfg.dedupSubjects == 1 ==> m.subject == Output)
    && (!cfg.dedup ==> m.dedupKey == "")
  }

  /** Preparing a record fails, diverts it or makes its message by what the record is and how
    * the dead-letter push goes. */
  lemma PrepareMeans(cfg: Config, answers: Answers, rec: Record, c: Counters)
    requires cfg.Accepted()
    ensures var (p, c') := Prepare(cfg, answers, rec, c);
      && (p.Ready? <==> !Misfit(cfg, rec) && !Unpublishable(cfg, rec))
      && (p.Ready? ==> p.msg.origin == rec && MadeOf(cfg, p.msg) && c'.pushes == c.pushes && c'.signals == c.signals)
      && (p.Diverted? <==> Unpublishable(cfg, rec) && answers.dlq(c.pushes).None?)
      && (Unpublishable(cfg, rec) ==> c'.pushes == c.pushes + 1 && c'.signals == c.signals)
      && (p.Rejected? && Unpublishable(cfg, rec) ==> answers.dlq(c.pushes) == Some(p.err))
      && (Misfit(cfg, rec) ==> p.Rejected? && c'.pushes == c.pushes && c'.signals == c.signals + 1)
      && (Misfit(cfg, rec) ==>
        p.err == cfg.Validate(rec.value).err || answers.signal(c.signals) == Some(p.err))
  {
  }

  /** External messages drop exactly a five byte prefix, and messages with equal keys share a
    * subject, which is one of those configured. */
  lemma EqualKeysShareASubject(cfg: Config, m: Message, m': Message)
    requires MadeOf(cfg, m) && MadeOf(cfg, m') && cfg.dedup
    ensures m.dedupKey == m'.dedupKey ==> m.subject == m'.subject
    ensures m.subject == Output || (m.subject.DedupNumbered? && m.subject.index < cfg.dedupSubjects)
    ensures if cfg.external then m.origin.value == m.origin.value[..5] + m.data else m.origin.value == m.data
  {
  }

  /** A publish answer that ends the call: an error that is not, and is not joined from,
    * back-pressure. */
  predicate IsFatal(a: PublishAnswer) {
    match a
    case Acked => false
    case Refused(e) => Backpressure !in Leaves(e)
    case Nacked(e) => Backpressure !in Leaves(e)
  }

  /** Some publish call between two positions was for this record and was answered so. */
  ghost predicate Answered(answers: Answers, from: Position, to: Position, r: Record, a: PublishAnswer) {
    exists k :: |from.tried| <= k < |to.tried| && to.tried[k] == r && answers.publish(k) == a
  }

  /** Some publish of the record was answered fatally. */
  ghost predicate Condemned(answers: Answers, from: Position, to: Position, r: Record) {
    exists a :: Answered(answers, from, to, r, a) && IsFatal(a)
  }

  ghost predicate NoneFatal(answers: Answers, from: Position, to: Position) {
    forall k :: |from.tried| <= k < |to.tried| ==> !IsFatal(answers.publish(k))
  }

  /** What may end a call with this error, apart from the context: a fatal publish answer, a
    * record that does not fit its schema, or a refused dead-letter push. */
  ghost predicate Reason(cfg: Config, answers: Answers, batch: seq<Record>, from: Position, to: Position, e: Error) {
    || (exists r, a :: Answered(answers, from, to, r, a) && IsFatal(a) && a.err == e)
    || (exists r :: r in batch && Misfit(cfg, r)
          && (cfg.Validate(r.value).err == e || SignalFailed(answers, from, to, e)))
    || PushFailed(answers, from, to, e)
  }

  ghost predicate SignalFailed(answers: Answers, from: Position, to: Position, e: Error) {
    exists k :: from.signals <= k < to.signals && answers.signal(k) == Some(e)
  }

  ghost predicate PushFailed(answers: Answers, from: Position, to: Position, e: Error) {
    exists k :: from.pushes <= k < to.pushes && answers.dlq(k) == Some(e)
  }

  /** Nothing between the two positions gives a reason to end the call. */
  ghost predicate AllWell(cfg: Config, answers: Answers, batch: seq<Record>, from: Position, to: Position) {
    && NoneFatal(answers, from, to)
    && PushesWork(answers, from.pushes, to.pushes)
    && forall r :: r in batch ==> !Misfit(cfg, r)
  }

  /** What the call's state owes to the answers so far; `fs` are the publishes in flight. */
  ghost predicate Grounds(cfg: Config, answers: Answers, batch: seq<Record>, from: Position, to: Position,
                          fs: seq<PendingPublish>, cursor: nat, savedErr: Option<Error>, doomed: seq<nat>) {
    && from.tried <= to.tried && from.pushes <= to.pushes && from.signals <= to.signals && cursor <= |batch|
    && (savedErr.Some? ==> Reason(cfg, answers, batch, from, to, savedErr.value))
    && (savedErr.None? ==> doomed == [] && PushesWork(answers, from.pushes, to.pushes))
    && (savedErr.None? ==>
      forall k :: |from.tried| <= k < |to.tried| && IsFatal(answers.publish(k)) ==> Pending(fs, answers.publish(k)))
    && (forall j :: 0 <= j < |doomed| ==> doomed[j] < |batch| && Condemned(answers, from, to, batch[doomed[j]]))
    && (forall j :: 0 <= j < |fs| ==>
      fs[j].idx < |batch| && Answered(answers, from, to, batch[fs[j].idx], fs[j].answer))
    && (forall i :: 0 <= i < cursor ==> !Misfit(cfg, batch[i]))
    && (forall r :: to.dead[r] > from.dead[r] ==> Unpublishable(cfg, r))
  }

  ghost predicate Pending(fs: seq<PendingPublish>, a: PublishAnswer) {
    exists j :: 0 <= j < |fs| && fs[j].answer == a
  }

  lemma GroundsBegin(cfg: Config, answers: Answers, batch: seq<Record>, from: Position)
    ensures Grounds(cfg, answers, batch, from, from, [], 0, None, [])
  {
  }

  /** The position moves on; what was answered stays answered. */
  lemma StillAnswered(answers: Answers, from: Position, to: Position, to': Position)
    requires to.tried <= to'.tried && to.pushes <= to'.pushes && to.signals <= to'.signals
    ensures forall r, a :: Answered(answers, from, to, r, a) ==> Answered(answers, from, to', r, a)
    ensures forall r :: Condemned(answers, from, to, r) ==> Condemned(answers, from, to', r)
    ensures forall cfg, batch, e ::
      Reason(cfg, answers, batch, from, to, e) ==> Reason(cfg, answers, batch, from, to', e)
  {
    forall r, a | Answered(answers, from, to, r, a) ensures Answered(answers, from, to', r, a) {
      var k :| |from.tried| <= k < |to.tried| && to.tried[k] == r && answers.publish(k) == a;
      assert to'.tried[k] == to.tried[k];
    }
  }

  /** One more publish call. */
  ghost function Trying(to: Position, r: Record): Position {
    to.(tried := to.tried + [r])
  }

  lemma JustAnswered(answers: Answers, from: Position, to: Position, r: Record)
    requires |from.tried| <= |to.tried|
    ensures Answered(answers, from, Trying(to, r), r, answers.publish(|to.tried|))
  {
    assert Trying(to, r).tried[|to.tried|] == r;
  }

  lemma GroundsPublish(cfg: Config, answers: Answers, batch: seq<Record>, from: Position, to: Position,
                       fs: seq<PendingPublish>, cursor: nat, doomed: seq<nat>, idx: nat)
    requires Grounds(cfg, answers, batch, from, to, fs, cursor, None, doomed) && idx < |batch|
    ensures var to', a := Trying(to, batch[idx]), answers.publish(|to.tried|);
      && (!a.Refused? ==> Grounds(cfg, answers, batch, from, to', fs + [PendingPublish(a, idx)], cursor, None, doomed))
      && (a.Refused? && !IsFatal(a) ==> Grounds(cfg, answers, batch, from, to', fs, cursor, None, doomed))
      && (a.Refused? && IsFatal(a) ==> Grounds(cfg, answers, batch, from, to', fs, cursor, Some(a.err), doomed + [idx]))
  {
    var to', a := Trying(to, batch[idx]), answers.publish(|to.tried|);
    hide Reason, IsFatal, Unpublishable, Misfit, Answered, Condemned, Pending;
    StillAnswered(answers, from, to, to');
    JustAnswered(answers, from, to, batch[idx]);
    MorePending(fs, PendingPublish(a, idx));
    if IsFatal(a) {
      assert Condemned(answers, from, to', batch[idx]) && Reason(cfg, answers, batch, from, to', a.err) by {
        FatalIsReason(cfg, answers, batch, from, to', batch[idx], a);
      }
    }
  }

  /** What the code tells apart: an error is fatal unless it looks like back-pressure. */
  lemma FatalOrThrottled(a: PublishAnswer)
    ensures IsFatal(a) <==> !a.Acked? && !IsBackpressureErr(a.err)
  {
    if !a.Acked? {
      LooksThrough(a.err);
    }
  }

  lemma FailedPushFails(answers: Answers, from: Position, to: Position)
    ensures forall e :: PushFailed(answers, from, to, e) ==> !PushesWork(answers, from.pushes, to.pushes)
  {
  }

  lemma FitsItsSchema(cfg: Config, m: Message)
    requires MadeOf(cfg, m)
    ensures !Misfit(cfg, m.origin)
  {
  }

  lemma FatalIsReason(cfg: Config, answers: Answers, batch: seq<Record>, from: Position, to: Position, r: Record,
                      a: PublishAnswer)
    requires Answered(answers, from, to, r, a) && IsFatal(a)
    ensures Condemned(answers, from, to, r) && Reason(cfg, answers, batch, from, to, a.err)
  {
  }

  lemma MorePending(fs: seq<PendingPublish>, f: PendingPublish)
    ensures forall a :: Pending(fs, a) ==> Pending(fs + [f], a)
    ensures Pending(fs + [f], f.answer)
  {
    assert (fs + [f])[|fs|] == f;
    forall a | Pending(fs, a) ensures Pending(fs + [f], a) {
      var j :| 0 <= j < |fs| && fs[j].answer == a;
      assert (fs + [f])[j].answer == a;
    }
  }

  lemma FewerPending(fs: seq<PendingPublish>)
    requires fs != []
    ensures forall a :: Pending(fs, a) ==> a == fs[0].answer || Pending(fs[1..], a)
  {
    forall a | Pending(fs, a) && a != fs[0].answer ensures Pending(fs[1..], a) {
      var j :| 0 <= j < |fs| && fs[j].answer == a;
      assert fs[1..][j - 1].answer == a;
    }
  }

  /** The cursor passes a record that fits its schema. */
  lemma GroundsPass(cfg: Config, answers: Answers, batch: seq<Record>, from: Position, to: Position,
                    fs: seq<PendingPublish>, cursor: nat, savedErr: Option<Error>, doomed: seq<nat>)
    requires Grounds(cfg, answers, batch, from, to, fs, cursor, savedErr, doomed)
    requires cursor < |batch| && !Misfit(cfg, batch[cursor])
    ensures Grounds(cfg, answers, batch, from, to, fs, cursor + 1, savedErr, doomed)
  {
    hide Reason, IsFatal, Unpublishable, Misfit, Answered, Condemned, Pending;
  }

  /** The record at the cursor is prepared. */
  lemma GroundsPrepare(cfg: Config, answers: Answers, batch: seq<Record>, from: Position, to: Position,
                       fs: seq<PendingPublish>, cursor: nat, doomed: seq<nat>, c: Counters)
    requires cfg.Accepted() && Grounds(cfg, answers, batch, from, to, fs, cursor, None, doomed) && cursor < |batch|
    requires c.pushes == to.pushes && c.signals == to.signals
    ensures var (p, c') := Prepare(cfg, answers, batch[cursor], c);
      var to' := to.(pushes := c'.pushes, signals := c'.signals);
      match p
      case Ready(msg) => to' == to && !Misfit(cfg, batch[cursor])
      case Rejected(e) => Grounds(cfg, answers, batch, from, to', fs, cursor, Some(e), doomed)
      case Diverted =>
        var dead := to.dead + multiset{batch[cursor]};
        Grounds(cfg, answers, batch, from, to'.(dead := dead), fs, cursor + 1, None, doomed)
  {
    hide Prepare, IsFatal, Unpublishable, Misfit, Answered, Condemned, Pending;
    PrepareMeans(cfg, answers, batch[cursor], c);
    var (p, c') := Prepare(cfg, answers, batch[cursor], c);
    var to' := to.(pushes := c'.pushes, signals := c'.signals);
    assert batch[cursor] in batch;
    StillAnswered(answers, from, to, to');
    StillAnswered(answers, from, to, to'.(dead := to.dead + multiset{batch[cursor]}));
  }

  /** The first publish in flight was acknowledged, throttled or failed. */
  lemma GroundsAwait(cfg: Config, answers: Answers, batch: seq<Record>, from: Position, to: Position,
                     fs: seq<PendingPublish>, cursor: nat, savedErr: Option<Error>, doomed: seq<nat>)
    requires Grounds(cfg, answers, batch, from, to, fs, cursor, savedErr, doomed) && fs != []
    ensures !IsFatal(fs[0].answer) ==> Grounds(cfg, answers, batch, from, to, fs[1..], cursor, savedErr, doomed)
    ensures IsFatal(fs[0].answer) ==>
      Grounds(cfg, answers, batch, from, to, fs[1..], cursor,
              if savedErr.Some? then savedErr else Some(fs[0].answer.err), doomed + [fs[0].idx])
  {
    hide Reason, Unpublishable, Misfit, Answered, Condemned, Pending;
    FewerPending(fs);
    if IsFatal(fs[0].answer) {
      FatalIsReason(cfg, answers, batch, from, to, batch[fs[0].idx], fs[0].answer);
    }
  }

  /** Some look between two numbers of looks found the context done. */
  predicate SawDone(from: nat, to: nat, cancelTick: nat) {
    from < to && cancelTick < to
  }

  /** Which records a call dead-lettered: those no message can be made of, those a publish of
    * which failed fatally, and further ones only after an error that is no cancellation. */
  ghost predicate Buries(cfg: Config, answers: Answers, from: Position, to: Position, cause: Option<Error>) {
    forall r :: to.dead[r] > from.dead[r] ==>
      || Unpublishable(cfg, r)
      || Condemned(answers, from, to, r)
      || (cause.Some? && ContextDone !in Leaves(cause.value))
  }

  /** How a call ends, from the answers it was given. It ends without an error exactly when
    * there was no reason for one and no look found the context done, so a throttled publish
    * never ends it; an error is a reason or the end of the context, joined with the error of
    * the dead-letter push that failed in the cleanup, if one did. */
  ghost predicate Ends(cfg: Config, answers: Answers, batch: seq<Record>, from: Position, to: Position, sawDone: bool,
                       err: Option<Error>) {
    && (err.None? <==> AllWell(cfg, answers, batch, from, to) && !sawDone)
    && (err.None? ==> Buries(cfg, answers, from, to, None) && NoneCondemned(answers, from, to))
    && (err.Some? ==> exists cause :: EndsBy(cfg, answers, batch, from, to, sawDone, err.value, cause))
  }

  ghost predicate NoneCondemned(answers: Answers, from: Position, to: Position) {
    forall r :: !Condemned(answers, from, to, r)
  }

  ghost predicate EndsBy(cfg: Config, answers: Answers, batch: seq<Record>, from: Position, to: Position, sawDone: bool,
                         err: Error, cause: Error) {
    && (Reason(cfg, answers, batch, from, to, cause) || (sawDone && cause == ContextDone))
    && (err == cause || (err.Joined? && err.first == cause && PushFailed(answers, from, to, err.second)))
    && Buries(cfg, answers, from, to, Some(cause))
  }

  /** The blocking mode ends without an error exactly when no dead-letter push of the call
    * failed and every record fits its schema; it dead-letters only records that no message can
    * be made of or whose publish was not acknowledged. */
  ghost predicate SyncEnds(cfg: Config, answers: Answers, batch: seq<Record>, from: Position, to: Position,
                           failed: bool) {
    && (!failed <==> PushesWork(answers, from.pushes, to.pushes) && forall r :: r in batch ==> !Misfit(cfg, r))
    && SyncBuries(cfg, answers, from, to)
  }

  ghost predicate SyncBuries(cfg: Config, answers: Answers, from: Position, to: Position) {
    forall r :: to.dead[r] > from.dead[r] ==> Unpublishable(cfg, r) || NotAcked(answers, from, to, r)
  }

  ghost predicate NotAcked(answers: Answers, from: Position, to: Position, r: Record) {
    exists a :: Answered(answers, from, to, r, a) && !a.Acked?
  }

  /** The first k records went through the blocking mode. */
  ghost predicate SyncGrounds(cfg: Config, answers: Answers, batch: seq<Record>, from: Position, to: Position, k: nat) {
    && k <= |batch| && from.tried <= to.tried && from.pushes <= to.pushes
    && PushesWork(answers, from.pushes, to.pushes) && (forall i :: 0 <= i < k ==> !Misfit(cfg, batch[i]))
    && SyncBuries(cfg, answers, from, to)
  }

  /** A record was prepared and, if there is a message, published, and dead-lettered if that
    * failed. */
  ghost predicate SyncMoves(cfg: Config, answers: Answers, rec: Record, to: Position, to': Position, err: Option<Error>,
                            p: Prepared) {
    && (p.Ready? <==> !Misfit(cfg, rec) && !Unpublishable(cfg, rec))
    && (Misfit(cfg, rec) ==> err.Some? && to'.tried == to.tried && to'.pushes == to.pushes && to'.dead == to.dead)
    && (Unpublishable(cfg, rec) ==> to'.tried == to.tried && Pushed(answers, rec, to, to', err))
    && (p.Ready? ==> to'.tried == to.tried + [rec])
    && (p.Ready? && answers.publish(|to.tried|).Acked? ==> err.None? && to'.pushes == to.pushes && to'.dead == to.dead)
    && (p.Ready? && !answers.publish(|to.tried|).Acked? ==> Pushed(answers, rec, to, to', err))
  }

  ghost predicate Pushed(answers: Answers, rec: Record, to: Position, to': Position, err: Option<Error>) {
    && to'.pushes == to.pushes + 1 && (err.None? <==> answers.dlq(to.pushes).None?)
    && to'.dead == if err.None? then to.dead + multiset{rec} else to.dead
  }

  lemma SyncStep(cfg: Config, answers: Answers, batch: seq<Record>, from: Position, to: Position, to': Position, k: nat,
                 err: Option<Error>, p: Prepared)
    requires k < |batch| && SyncGrounds(cfg, answers, batch, from, to, k)
    requires SyncMoves(cfg, answers, batch[k], to, to', err, p)
    ensures err.None? ==> SyncGrounds(cfg, answers, batch, from, to', k + 1)
    ensures err.Some? ==> SyncEnds(cfg, answers, batch, from, to', true)
  {
    hide Misfit, Unpublishable;
    assert batch[k] in batch;
    forall r | to'.dead[r] > from.dead[r] ensures Unpublishable(cfg, r) || NotAcked(answers, from, to', r) {
      if to'.dead[r] > to.dead[r] {
        if !Unpublishable(cfg, r) {
          assert to'.tried[|to.tried|] == r;
          assert Answered(answers, from, to', r, answers.publish(|to.tried|));
        }
      } else if !Unpublishable(cfg, r) {
        var a :| Answered(answers, from, to, r, a) && !a.Acked?;
        var j :| |from.tried| <= j < |to.tried| && to.tried[j] == r && answers.publish(j) == a;
        assert to'.tried[j] == r;
        assert Answered(answers, from, to', r, a);
      }
    }
    if err.Some? && !Misfit(cfg, batch[k]) {
      assert answers.dlq(to.pushes).Some?;
    }
  }

  lemma SyncBegins(cfg: Config, answers: Answers, batch: seq<Record>, from: Position)
    ensures SyncGrounds(cfg, answers, batch, from, from, 0)
  {
  }

  lemma SyncDone(cfg: Config, answers: Answers, batch: seq<Record>, from: Position, to: Position)
    requires SyncGrounds(cfg, answers, batch, from, to, |batch|)
    ensures SyncEnds(cfg, answers, batch, from, to, false)
  {
    hide Misfit, Unpublishable;
    forall r | r in batch ensures !Misfit(cfg, r) {
      var i :| 0 <= i < |batch| && batch[i] == r;
    }
  }

  // ----- Throttling that stops -----

  predicate AckedIn(answers: Answers, lo: nat, hi: nat) {
    forall k :: lo <= k < hi ==> answers.publish(k).Acked?
  }

  lemma AckedSplit(answers: Answers, lo: nat, mid: nat, hi: nat)
    requires lo <= mid <= hi
    ensures AckedIn(answers, lo, hi) <==> AckedIn(answers, lo, mid) && AckedIn(answers, mid, hi)
  {
  }

  /** From call number n on every publish is acknowledged. */
  ghost predicate Quiet(answers: Answers, n: nat) {
    forall k :: n <= k ==> answers.publish(k).Acked?
  }

  /** Before a turn the context was looked at at most twice for each publish call so far, and
    * also at most twice for each call before the throttling stops. */
  ghost predicate Patient(answers: Answers, tried0: nat, ticks0: nat, tried: nat, ticks: nat) {
    && tried0 <= tried && ticks0 <= ticks <= ticks0 + 2 * (tried - tried0)
    && forall n: nat :: tried0 <= n && Quiet(answers, n) ==> ticks <= ticks0 + 2 * (n - tried0)
  }

  /** A turn that does not end the call had a publish that was not acknowledged. */
  lemma PatientTurn(answers: Answers, tried0: nat, ticks0: nat, tried: nat, tried': nat, ticks: nat)
    requires Patient(answers, tried0, ticks0, tried, ticks) && tried <= tried' && !AckedIn(answers, tried, tried')
    ensures Patient(answers, tried0, ticks0, tried', ticks + 2)
  {
    var k :| tried <= k < tried' && !answers.publish(k).Acked?;
  }

  /** If throttling stops while the context has two looks left for each call until then, no
    * look finds it done. */
  ghost predicate InTime(answers: Answers, tried0: nat, ticks0: nat, ticks: nat, cancelTick: nat) {
    forall n: nat :: tried0 <= n && Quiet(answers, n) && ticks0 + 2 * (n - tried0) < cancelTick ==>
      !SawDone(ticks0, ticks, cancelTick)
  }

  lemma FirstLook(answers: Answers, tried0: nat, ticks0: nat, tried: nat, ticks: nat, cancelTick: nat)
    requires Patient(answers, tried0, ticks0, tried, ticks) && !SawDone(ticks0, ticks, cancelTick)
    ensures InTime(answers, tried0, ticks0, ticks, cancelTick) && InTime(answers, tried0, ticks0, ticks + 1, cancelTick)
    ensures ticks0 <= ticks
  {
  }

  lemma SecondLook(answers: Answers, tried0: nat, ticks0: nat, tried: nat, tried': nat, ticks: nat, cancelTick: nat)
    requires Patient(answers, tried0, ticks0, tried, ticks) && tried <= tried' && !AckedIn(answers, tried, tried')
    ensures InTime(answers, tried0, ticks0, ticks + 2, cancelTick)
  {
    PatientTurn(answers, tried0, ticks0, tried, tried', ticks);
  }

  lemma EndsWell(cfg: Config, answers: Answers, batch: seq<Record>, from: Position, to: Position)
    requires Grounds(cfg, answers, batch, from, to, [], |batch|, None, [])
    ensures Ends(cfg, answers, batch, from, to, false, None)
  {
    hide Reason, IsFatal, Unpublishable, Misfit, Answered;
    forall k | |from.tried| <= k < |to.tried| ensures !IsFatal(answers.publish(k)) {
      assert !Pending([], answers.publish(k));
    }
    forall r | r in batch ensures !Misfit(cfg, r) {
      var i :| 0 <= i < |batch| && batch[i] == r;
    }
    forall r, a | Answered(answers, from, to, r, a) ensures !IsFatal(a) {
      AnsweredAt(answers, from, to, r, a);
    }
  }

  lemma AnsweredAt(answers: Answers, from: Position, to: Position, r: Record, a: PublishAnswer)
    requires Answered(answers, from, to, r, a)
    ensures exists k :: |from.tried| <= k < |to.tried| && answers.publish(k) == a
  {
  }

  lemma ReasonSpoils(cfg: Config, answers: Answers, batch: seq<Record>, from: Position, to: Position, e: Error)
    requires Reason(cfg, answers, batch, from, to, e)
    ensures !AllWell(cfg, answers, batch, from, to)
  {
  }

  /** The cleanup moved the position on and dead-lettered what it had to. */
  lemma EndsBadly(cfg: Config, answers: Answers, batch: seq<Record>, from: Position, to: Position, to': Position,
                  fs: seq<PendingPublish>, cursor: nat, savedErr: Option<Error>, doomed: seq<nat>, sawDone: bool,
                  cause: Error, err: Error)
    requires Grounds(cfg, answers, batch, from, to, fs, cursor, savedErr, doomed)
    requires to.tried <= to'.tried && to.pushes <= to'.pushes && to.signals <= to'.signals
    requires savedErr == Some(cause) || (sawDone && cause == ContextDone)
    requires err == cause || (err.Joined? && err.first == cause && PushFailed(answers, to, to', err.second))
    requires ContextDone in Leaves(cause) ==> forall r :: to'.dead[r] > to.dead[r] ==> Among(batch, doomed, r)
    ensures Ends(cfg, answers, batch, from, to', sawDone, Some(err))
  {
    hide IsFatal, Unpublishable, Misfit, Answered, Condemned, AllWell, Reason;
    StillAnswered(answers, from, to, to');
    forall r | to'.dead[r] > from.dead[r] && ContextDone in Leaves(cause)
      ensures Unpublishable(cfg, r) || Condemned(answers, from, to', r)
    {
      if to'.dead[r] > to.dead[r] {
        assert Among(batch, doomed, r);
        var j :| 0 <= j < |doomed| && doomed[j] < |batch| && batch[doomed[j]] == r;
      }
    }
    assert EndsBy(cfg, answers, batch, from, to', sawDone, err, cause);
    if savedErr == Some(cause) {
      ReasonSpoils(cfg, answers, batch, from, to', cause);
    }
  }

  ghost predicate Among(batch: seq<Record>, idxs: seq<nat>, r: Record) {
    exists j :: 0 <= j < |idxs| && idxs[j] < |batch| && batch[idxs[j]] == r
  }

  /** Per-call state of processBatchAsync. `fate` is a proof device: it names, for each
    * index, the one list or flag the source keeps it in. */
  class AsyncBatchState {
    const batch: seq<Record>
    const cachedMsgs: array<Option<Message>>
    const completed: array<bool>
    const backpressure: array<nat>
    var carried: nat
    var dlqOnExit: seq<nat>
    var cursor: nat
    var lastAckedIdx: int
    var savedErr: Option<Error>
    ghost var fate: seq<Fate>
    ghost var made: seq<Message>
    ghost const start: Totals
    ghost const log0: seq<Event>
    ghost const before: seq<Message>
    ghost const cfg: Config
    ghost const from: Position
    ghost const ticks0: nat

    constructor (batch: seq<Record>, b: Broker, ghost cfg: Config, ghost before: seq<Message>)
      requires Distinct(batch)
      ensures this.batch == batch
      ensures start == b.Books() && log0 == b.log && this.before == before && made == []
      ensures this.cfg == cfg && from == b.At() && ticks0 == b.ticks
      ensures carried == cursor == 0 && dlqOnExit == [] && savedErr == None && lastAckedIdx == -1
      ensures Inv([]) && Accounts(b)
      ensures cachedMsgs.Length == |batch| && forall i :: 0 <= i < |batch| ==> cachedMsgs[i] == None
      ensures fresh(cachedMsgs) && fresh(completed) && fresh(backpressure)
    {
      this.batch := batch;
      cachedMsgs := new Option<Message>[|batch|](_ => None);
      completed := new bool[|batch|](_ => false);
      backpressure := new nat[|batch|];
      carried, cursor, lastAckedIdx := 0, 0, -1;
      dlqOnExit, savedErr := [], None;
      fate := seq(|batch|, _ => Fresh);
      start, log0, this.before, made := b.Books(), b.log, before, [];
      this.cfg, from, ticks0 := cfg, b.At(), b.ticks;
      new;
      assert Carry() == [];
    }

    ghost function Carry(): seq<nat>
      requires carried <= backpressure.Length
      reads this, backpressure
    {
      backpressure[..carried]
    }

    ghost predicate Shape()
      reads this
    {
      && cachedMsgs.Length == completed.Length == backpressure.Length == |fate| == |batch|
      && carried <= |batch| && cursor <= |batch| && -1 <= lastAckedIdx < |batch|
      && Distinct(batch)
    }

    /** Everything but the carry: what holds while the carry slice is being filtered. */
    ghost predicate Core(inflight: seq<nat>)
      reads this, cachedMsgs, completed
    {
      && Shape()
      && (forall i :: 0 <= i < |batch| ==> (fate[i] == Fresh <==> cursor <= i))
      && (forall i :: 0 <= i < |batch| ==> (completed[i] <==> fate[i] == Done))
      && (forall i :: 0 <= i < |batch| && cachedMsgs[i].Some? ==>
        cachedMsgs[i].value.origin == batch[i] && MadeOf(cfg, cachedMsgs[i].value))
      && (forall i :: 0 <= i < |batch| && (fate[i] == Waiting || fate[i] == InFlight) ==> cachedMsgs[i].Some?)
      && (forall i :: 0 <= i <= lastAckedIdx ==> completed[i])
      && Lists(dlqOnExit, fate, Doomed)
      && Lists(inflight, fate, InFlight)
      && (dlqOnExit != [] ==> savedErr.Some?)
    }

    /** The loop invariant: below the cursor every index is in exactly one of completed,
      * backpressure, dlqOnExit or the in-flight futures; at or above it in none. */
    ghost predicate Inv(inflight: seq<nat>)
      reads this, cachedMsgs, completed, backpressure
    {
      Core(inflight) && Lists(Carry(), fate, Waiting)
    }

    /** The carry slice is filtered in place: entries before w are kept, those from r on are
      * still to be looked at, and the gap between has been moved elsewhere. */
    ghost predicate Filtering(inflight: seq<nat>, w: nat, r: nat, n: nat)
      reads this, cachedMsgs, completed, backpressure
    {
      Core(inflight) && w <= r <= n <= backpressure.Length &&
        Lists(backpressure[..w] + backpressure[r..n], fate, Waiting)
    }

    lemma CarriedIsCached(inflight: seq<nat>, w: nat, r: nat, n: nat)
      requires Filtering(inflight, w, r, n) && r < n
      ensures Shape() && backpressure[r] < cursor <= |batch|
      ensures cachedMsgs[backpressure[r]].Some? && cachedMsgs[backpressure[r]].value.origin == batch[backpressure[r]]
      ensures backpressure[..w] + backpressure[r..n] == backpressure[..w] + [backpressure[r]] + backpressure[r + 1..n]
    {
      assert (backpressure[..w] + backpressure[r..n])[w] == backpressure[r];
    }

    method Keep(ghost inflight: seq<nat>, w: nat, r: nat, n: nat)
      requires Filtering(inflight, w, r, n) && r < n
      modifies backpressure
      ensures Filtering(inflight, w + 1, r + 1, n)
    {
      CarriedIsCached(inflight, w, r, n);
      ghost var carry := backpressure[..w] + backpressure[r..n];
      backpressure[w] := backpressure[r];
      assert backpressure[..w + 1] + backpressure[r + 1..n] == carry;
    }

    /** The record at backpressure[r] was accepted by the stream. */
    ghost method Launch(inflight: seq<nat>, w: nat, r: nat, n: nat)
      requires Filtering(inflight, w, r, n) && r < n
      modifies this`fate
      ensures Filtering(inflight + [backpressure[r]], w, r + 1, n)
    {
      CarriedIsCached(inflight, w, r, n);
      var idx := backpressure[r];
      Move(backpressure[..w], idx, backpressure[r + 1..n], inflight, fate, Waiting, InFlight);
      Frame(dlqOnExit, idx, fate, InFlight, Fate.Doomed);
      fate := fate[idx := InFlight];
    }

    /** The record at backpressure[r] failed fatally; it waits for the cleanup. */
    method Doom(ghost inflight: seq<nat>, w: nat, r: nat, n: nat, err: Error)
      requires Filtering(inflight, w, r, n) && r < n
      modifies this`fate, this`dlqOnExit, this`savedErr
      ensures Filtering(inflight, w, r + 1, n)
      ensures savedErr == Some(err) && dlqOnExit == old(dlqOnExit) + [backpressure[r]]
    {
      CarriedIsCached(inflight, w, r, n);
      var idx := backpressure[r];
      Move(backpressure[..w], idx, backpressure[r + 1..n], dlqOnExit, fate, Waiting, Fate.Doomed);
      Frame(inflight, idx, fate, Fate.Doomed, InFlight);
      fate := fate[idx := Fate.Doomed];
      savedErr, dlqOnExit := Some(err), dlqOnExit + [idx];
    }

    /** The record at the cursor got a message; it keeps it for every retry. */
    method Cache(ghost inflight: seq<nat>, msg: Message)
      requires Inv(inflight) && cursor < |batch| && msg.origin == batch[cursor] && MadeOf(cfg, msg)
      modifies this`made, cachedMsgs
      ensures Inv(inflight) && cachedMsgs[cursor] == Some(msg) && made == old(made) + [msg]
      ensures forall i :: 0 <= i < |batch| && i != cursor ==> cachedMsgs[i] == old(cachedMsgs[i])
    {
      cachedMsgs[cursor] := Some(msg);
      made := made + [msg];
    }

    /** The record at the cursor went to the dead-letter stream while being prepared. */
    method PassDiverted(ghost inflight: seq<nat>)
      requires Inv(inflight) && cursor < |batch|
      modifies this`cursor, this`fate, completed
      ensures Inv(inflight) && cursor == old(cursor) + 1
      ensures completed[old(cursor)] && forall i :: 0 <= i < |batch| && i != old(cursor) ==>
        completed[i] == old(completed[i])
    {
      Frame(inflight, cursor, fate, Done, InFlight);
      Frame(dlqOnExit, cursor, fate, Done, Doomed);
      Frame(Carry(), cursor, fate, Done, Waiting);
      fate := fate[cursor := Done];
      completed[cursor] := true;
      cursor := cursor + 1;
    }

    /** The record at the cursor was accepted by the stream. */
    method PassLaunched(ghost inflight: seq<nat>)
      requires Inv(inflight) && cursor < |batch| && cachedMsgs[cursor].Some?
      modifies this`cursor, this`fate
      ensures Inv(inflight + [old(cursor)]) && cursor == old(cursor) + 1
    {
      Batches.Join(cursor, inflight, fate, InFlight);
      Frame(dlqOnExit, cursor, fate, InFlight, Doomed);
      Frame(Carry(), cursor, fate, InFlight, Waiting);
      fate := fate[cursor := InFlight];
      cursor := cursor + 1;
    }

    /** The publish of the record at the cursor failed fatally. */
    method PassDoomed(ghost inflight: seq<nat>, err: Error)
      requires Inv(inflight) && cursor < |batch|
      modifies this`cursor, this`fate, this`dlqOnExit, this`savedErr
      ensures Inv(inflight) && cursor == old(cursor) + 1
      ensures savedErr == Some(err) && dlqOnExit == old(dlqOnExit) + [old(cursor)]
    {
      Batches.Join(cursor, dlqOnExit, fate, Fate.Doomed);
      Frame(inflight, cursor, fate, Fate.Doomed, InFlight);
      Frame(Carry(), cursor, fate, Fate.Doomed, Waiting);
      fate := fate[cursor := Fate.Doomed];
      savedErr, dlqOnExit := Some(err), dlqOnExit + [cursor];
      cursor := cursor + 1;
    }

    method FailPrepare(ghost inflight: seq<nat>, err: Error)
      requires Inv(inflight)
      modifies this`savedErr
      ensures Inv(inflight) && savedErr == Some(err)
    {
      savedErr := Some(err);
    }

    /** An in-flight publish was acknowledged. */
    method SettleInFlight(idx: nat, ghost rest: seq<nat>)
      requires Inv([idx] + rest)
      modifies this`fate, completed
      ensures Inv(rest)
      ensures idx < |batch| && completed[..] == old(completed[..])[idx := true] && !old(completed[idx])
    {
      Finish(idx, rest, fate, InFlight, Done);
      Frame(dlqOnExit, idx, fate, Done, Fate.Doomed);
      Frame(Carry(), idx, fate, Done, Waiting);
      fate := fate[idx := Done];
      completed[idx] := true;
    }

    /** An in-flight publish was throttled by the server; the record waits for a retry. */
    method CarryInFlight(idx: nat, ghost rest: seq<nat>)
      requires Inv([idx] + rest)
      modifies this`fate, this`carried, backpressure
      ensures Inv(rest) && carried == old(carried) + 1
    {
      MoveHead(idx, rest, Carry(), fate, InFlight, Waiting);
      Frame(dlqOnExit, idx, fate, Waiting, Fate.Doomed);
      Room(Carry(), |batch|, idx);
      ghost var carry := Carry();
      backpressure[carried] := idx;
      carried := carried + 1;
      assert Carry() == carry + [idx];
      fate := fate[idx := Waiting];
    }

    /** An in-flight publish failed fatally. */
    method DoomInFlight(idx: nat, ghost rest: seq<nat>, err: Error)
      requires Inv([idx] + rest)
      modifies this`fate, this`dlqOnExit, this`savedErr
      ensures Inv(rest) && dlqOnExit == old(dlqOnExit) + [idx]
      ensures savedErr == (if old(savedErr).Some? then old(savedErr) else Some(err))
    {
      MoveHead(idx, rest, dlqOnExit, fate, InFlight, Fate.Doomed);
      Frame(Carry(), idx, fate, Fate.Doomed, Waiting);
      fate := fate[idx := Fate.Doomed];
      if savedErr.None? {
        savedErr := Some(err);
      }
      dlqOnExit := dlqOnExit + [idx];
    }

    /** Walks the contiguous prefix of completed records as far as it goes. */
    method AdvanceLastAckedIdx()
      requires Settleable()
      modifies this`lastAckedIdx
      ensures Settleable() && PrefixIsMaximal()
    {
      var i := lastAckedIdx + 1;
      while i < |batch| && completed[i]
        invariant 0 <= i == lastAckedIdx + 1 <= |batch|
        invariant forall j :: 0 <= j < i ==> completed[j]
      {
        lastAckedIdx := i;
        i := i + 1;
      }
    }

    ghost predicate Settleable()
      reads this`lastAckedIdx, completed
    {
      completed.Length == |batch| && -1 <= lastAckedIdx < |batch| && forall j :: 0 <= j <= lastAckedIdx ==> completed[j]
    }

    ghost predicate PrefixIsMaximal()
      reads this`lastAckedIdx, completed
    {
      0 <= lastAckedIdx + 1 < completed.Length ==> !completed[lastAckedIdx + 1]
    }

    method AdvanceInLoop()
      requires Inv([])
      modifies this`lastAckedIdx
      ensures Inv([]) && PrefixIsMaximal()
    {
      AdvanceLastAckedIdx();
    }

    /** What the cleanup may still have to dead-letter: the fatal indices, then the carry. */
    lemma Leftovers(idxs: seq<nat>)
      requires Inv([]) && (idxs == dlqOnExit || idxs == dlqOnExit + Carry())
      ensures Settleable()
      ensures forall i :: i in idxs ==> i < cursor
      ensures idxs == dlqOnExit + Carry() ==> forall i :: 0 <= i < cursor && !completed[i] ==> i in idxs
      ensures forall i :: cursor <= i < |batch| ==> !completed[i]
    {
      var carry := Carry();
      forall i | idxs == dlqOnExit + carry && 0 <= i < cursor && !completed[i] ensures i in idxs {
        assert fate[i] == Waiting || fate[i] == Fate.Doomed by {
          assert fate[i] == InFlight ==> i in [];
        }
        assert i in carry || i in dlqOnExit;
      }
    }

    lemma AllDone()
      requires Inv([]) && cursor == |batch| && carried == 0 && savedErr.None?
      ensures forall i :: 0 <= i < |batch| ==> completed[i]
    {
      Leftovers(dlqOnExit + Carry());
    }

    lemma InFlightIndex(idx: nat, rest: seq<nat>)
      requires Inv([idx] + rest)
      ensures idx < |batch|
    {
      assert ([idx] + rest)[0] == idx;
    }

    lemma InvGivesShape(inflight: seq<nat>)
      requires Inv(inflight)
      ensures Shape()
      ensures forall i :: 0 <= i < |batch| && cachedMsgs[i].Some? ==>
        cachedMsgs[i].value.origin == batch[i] && MadeOf(cfg, cachedMsgs[i].value)
      ensures forall i :: cursor <= i < |batch| ==> !completed[i]
    {
    }

    lemma StartFiltering(inflight: seq<nat>)
      requires Inv(inflight)
      ensures Filtering(inflight, 0, 0, carried) && carried <= backpressure.Length
    {
      assert backpressure[..0] + backpressure[0..carried] == Carry();
    }

    method EndFiltering(ghost inflight: seq<nat>, w: nat, n: nat)
      requires Filtering(inflight, w, n, n)
      modifies this`carried
      ensures Inv(inflight) && carried == w
    {
      assert backpressure[..w] + backpressure[n..n] == backpressure[..w];
      carried := w;
    }

    /** The broker's books since the call began. */
    ghost predicate Accounts(b: Broker)
      reads this`cursor, this`made, cachedMsgs, completed, b`accepted, b`acked, b`dead, b`log
    {
      && Ledger(batch, completed[..], cursor, start, b.Books())
      && Traceable(cachedMsgs[..], log0, b.log)
      && PreparedOnce(cachedMsgs[..], made)
    }
  }

  /** The call's effects so far, against the straight-line run over the same answers. */
  ghost predicate OnTrack(cfg: Config, answers: Answers, batch: seq<Record>, cursor: nat, c0: Counters,
                          log0: seq<Event>,
                          c: Counters, log: seq<Event>, savedErr: Option<Error>)
  {
    && cfg.Accepted() && cursor <= |batch|
    && var run := RunTo(cfg, answers, batch, cursor, c0);
    && run.err.None? && log == log0 + run.log
    && (savedErr.None? ==> c == run.counters)
    && (savedErr.Some? ==> cursor < |batch| && RunTo(cfg, answers, batch, cursor + 1, c0).err == savedErr)
  }

  lemma OnTrackStep(cfg: Config, answers: Answers, batch: seq<Record>, i: nat, c0: Counters, log0: seq<Event>,
                    c: Counters, log: seq<Event>)
    requires i < |batch| && OnTrack(cfg, answers, batch, i, c0, log0, c, log, None)
    ensures match Prepare(cfg, answers, batch[i], c)
            case (Rejected(e), c') => OnTrack(cfg, answers, batch, i, c0, log0, c', log, Some(e))
            case (Diverted, c') => OnTrack(cfg, answers, batch, i + 1, c0, log0, c', log + [Buried(batch[i])], None)
            case (Ready(msg), c') => OnTrack(cfg, answers, batch, i + 1, c0, log0, c', log + [Published(msg)], None)
  {
    var run := RunTo(cfg, answers, batch, i, c0);
    assert forall e :: log0 + (run.log + [e]) == log + [e];
  }

  /** How a call leaves its batch: the records up to index k are settled exactly once each,
    * k ends the longest such prefix, nothing is settled twice and nothing else is touched. */
  ghost predicate Outcome(batch: seq<Record>, t0: Totals, t: Totals, k: int) {
    && -1 <= k < |batch|
    && (forall i :: 0 <= i <= k ==> SettledTimes(batch[i], t0, t, 1))
    && (k + 1 < |batch| ==> SettledTimes(batch[k + 1], t0, t, 0))
    && (forall i :: 0 <= i < |batch| ==> SettledTimes(batch[i], t0, t, 0) || SettledTimes(batch[i], t0, t, 1))
    && (forall r :: r !in batch ==> SettledTimes(r, t0, t, 0) && t.accepted[r] == t0.accepted[r])
  }

  /** Nothing after index k was accepted by the stream or dead-lettered. */
  ghost predicate Untouched(batch: seq<Record>, t0: Totals, t: Totals, k: int) {
    forall i :: 0 <= i < |batch| && k < i ==>
      SettledTimes(batch[i], t0, t, 0) && t.accepted[batch[i]] == t0.accepted[batch[i]]
  }

  function LastOf(batch: seq<Record>, k: int): Option<Record>
    requires -1 <= k < |batch|
  {
    if k < 0 then None else Some(batch[k])
  }

  lemma LedgerGivesOutcome(batch: seq<Record>, completed: seq<bool>, cursor: nat, t0: Totals, t: Totals, k: int)
    requires Ledger(batch, completed, cursor, t0, t) && -1 <= k < |batch|
    requires forall i :: 0 <= i <= k ==> completed[i]
    requires k + 1 < |batch| ==> !completed[k + 1]
    ensures Outcome(batch, t0, t, k)
    ensures k == cursor - 1 && (forall i :: 0 <= cursor <= i < |batch| ==> !completed[i]) ==> Untouched(batch, t0, t, k)
  {
  }

  /** Every publish of one record since `log0` carried the same message. */
  ghost predicate OneMessagePerRecord(log0: seq<Event>, log: seq<Event>) {
    && log0 <= log
    && forall i, j :: |log0| <= i < |log| && |log0| <= j < |log| && log[i].Published? && log[j].Published? ==>
         log[i].msg.origin == log[j].msg.origin ==> log[i].msg == log[j].msg
  }

  lemma TraceableGivesOneMessage(cfg: Config, batch: seq<Record>, cached: seq<Option<Message>>, log0: seq<Event>,
                                 log: seq<Event>, made: seq<Message>)
    requires Distinct(batch) && Traceable(cached, log0, log) && |cached| == |batch|
    requires forall i :: 0 <= i < |batch| && cached[i].Some? ==>
      cached[i].value.origin == batch[i] && MadeOf(cfg, cached[i].value)
    requires PreparedOnce(cached, made)
    ensures OneMessagePerRecord(log0, log) && EachPreparedOnce(cfg, batch, log0, log, made)
  {
    hide MadeOf;
    forall k | 0 <= k < |made| ensures made[k].origin in batch && MadeOf(cfg, made[k]) {
      var a :| 0 <= a < |cached| && cached[a] == Some(made[k]);
    }
    forall k | |log0| <= k < |log| && log[k].Published? ensures log[k].msg in made {
      var a :| 0 <= a < |cached| && cached[a] == Some(log[k].msg);
    }
    forall i, j | |log0| <= i < |log| && |log0| <= j < |log| && log[i].Published? && log[j].Published?
                  && log[i].msg.origin == log[j].msg.origin
      ensures log[i].msg == log[j].msg
    {
      var a :| 0 <= a < |cached| && cached[a] == Some(log[i].msg);
      var c :| 0 <= c < |cached| && cached[c] == Some(log[j].msg);
    }
  }

  lemma OnTrackStarts(cfg: Config, answers: Answers, batch: seq<Record>, c0: Counters, log0: seq<Event>)
    requires cfg.Accepted()
    ensures OnTrack(cfg, answers, batch, 0, c0, log0, c0, log0, None)
  {
    assert log0 + [] == log0;
  }

  lemma OnTrackEnds(cfg: Config, answers: Answers, batch: seq<Record>, cursor: nat, c0: Counters, log0: seq<Event>,
                    c: Counters, log: seq<Event>, savedErr: Option<Error>)
    requires OnTrack(cfg, answers, batch, cursor, c0, log0, c, log, savedErr)
    requires cursor == |batch| || savedErr.Some?
    ensures var run := RunTo(cfg, answers, batch, |batch|, c0);
      log == log0 + run.log && run.done == cursor && run.err == savedErr
  {
    if savedErr.Some? {
      RunStopsAtTheFirstFailure(cfg, answers, batch, cursor + 1, |batch|, c0);
    }
  }

  datatype PendingPublish = PendingPublish(answer: PublishAnswer, idx: nat)

  function Indices(futures: seq<PendingPublish>): (s: seq<nat>)
    ensures |s| == |futures|
    ensures forall k :: 0 <= k < |s| ==> s[k] == futures[k].idx
  {
    seq(|futures|, k requires 0 <= k < |futures| => futures[k].idx)
  }

  class KafkaMsgProcessor {
    const cfg: Config
    var roundRobinCounter: nat
    var activeBackpressure: bool
    var episodesStarted: nat
    var episodesStopped: nat
    /** Every message that was ever prepared. */
    ghost var prepared: seq<Message>

    constructor (cfg: Config)
      requires cfg.Accepted()
      ensures this.cfg == cfg && roundRobinCounter == 0 && EpisodesBalance() && !activeBackpressure
      ensures prepared == [] && Routed()
    {
      this.cfg := cfg;
      prepared := [];
      roundRobinCounter, activeBackpressure, episodesStarted, episodesStopped := 0, false, 0, 0;
    }

    ghost predicate EpisodesBalance()
      reads this`episodesStarted, this`episodesStopped, this`activeBackpressure
    {
      episodesStarted == episodesStopped + (if activeBackpressure then 1 else 0)
    }

    /** The messages prepared so far took the subjects in turn, and the counter is their number. */
    ghost predicate Routed()
      reads this`prepared, this`roundRobinCounter
    {
      && RoundRobin(cfg, prepared)
      && (!cfg.dedup && cfg.subjects > 1 ==> roundRobinCounter == |prepared|)
    }

    /** The messages prepared since the call began are those the call's state knows of. */
    ghost predicate Tally(s: AsyncBatchState)
      reads this`prepared, this`roundRobinCounter, s`made
    {
      Routed() && prepared == s.before + s.made
    }

    /** The call's state owes everything to the answers so far; `fs` are in flight. */
    ghost predicate Grounded(s: AsyncBatchState, b: Broker, fs: seq<PendingPublish>)
      reads s`cursor, s`savedErr, s`dlqOnExit, b`tried, b`pushes, b`signals, b`dead
    {
      s.cfg == cfg && Grounds(cfg, b.answers, s.batch, s.from, b.At(), fs, s.cursor, s.savedErr, s.dlqOnExit)
    }

    ghost function Used(b: Broker): Counters
      reads this`roundRobinCounter, b`pushes, b`signals
    {
      Counters(roundRobinCounter, b.pushes, b.signals)
    }

    method BpStart()
      requires EpisodesBalance()
      modifies this`activeBackpressure, this`episodesStarted
      ensures EpisodesBalance() && activeBackpressure
    {
      if activeBackpressure { return; }
      activeBackpressure, episodesStarted := true, episodesStarted + 1;
    }

    method BpStop()
      requires EpisodesBalance()
      modifies this`activeBackpressure, this`episodesStopped
      ensures EpisodesBalance() && !activeBackpressure
    {
      if !activeBackpressure { return; }
      activeBackpressure, episodesStopped := false, episodesStopped + 1;
    }

    method PrepareMessage(rec: Record, b: Broker) returns (p: Prepared)
      requires cfg.Accepted() && Routed()
      modifies this`roundRobinCounter, this`prepared, b`pushes, b`signals, b`dead, b`log
      ensures Routed() && prepared == old(prepared) + (if p.Ready? then [p.msg] else [])
      ensures (p, Used(b)) == Prepare(cfg, b.answers, rec, old(Used(b)))
      ensures p.Ready? ==> p.msg.origin == rec && MadeOf(cfg, p.msg)
      ensures p.Diverted? ==> b.dead == old(b.dead) + multiset{rec} && b.log == old(b.log) + [Buried(rec)]
      ensures !p.Diverted? ==> b.dead == old(b.dead) && b.log == old(b.log)
      ensures old(b.pushes) <= b.pushes
    {
      PrepareMeans(cfg, b.answers, rec, Used(b));
      var verdict := cfg.Validate(rec.value);
      if verdict.Incompatible? {
        var sigErr := b.SendSignal();
        return Rejected(if sigErr.Some? then sigErr.value else verdict.err);
      }
      if verdict.Invalid? {
        var dlqErr := b.PushToDlq(rec);
        return if dlqErr.Some? then Rejected(dlqErr.value) else Diverted;
      }
      var data := rec.value;
      if cfg.external {
        data := data[5..];
      }
      if !cfg.dedup {
        var subject := GetSubject();
        p := Ready(Message(rec, subject, verdict.version, "", data));
        prepared := prepared + [p.msg];
        return;
      }
      var key := cfg.dedupKey(verdict.version, data);
      if key.None? {
        var dlqErr := b.PushToDlq(rec);
        return if dlqErr.Some? then Rejected(dlqErr.value) else Diverted;
      }
      p := Ready(Message(rec, DedupSubject(cfg, key.value), verdict.version, key.value, data));
      prepared := prepared + [p.msg];
    }

    method GetSubject() returns (subject: Subject)
      modifies this`roundRobinCounter
      ensures (subject, roundRobinCounter) == NextSubject(cfg, old(roundRobinCounter))
    {
      if cfg.subjects <= 1 {
        return Output;
      }
      roundRobinCounter := roundRobinCounter + 1;
      return Numbered((roundRobinCounter - 1) % cfg.subjects);
    }

    /** One publish call for a record below the cursor, with its cached message. */
    method Republish(s: AsyncBatchState, b: Broker, idx: nat) returns (answer: PublishAnswer)
      requires s.Shape() && s.Accounts(b)
      requires idx < s.cursor && s.cachedMsgs[idx].Some? && s.cachedMsgs[idx].value.origin == s.batch[idx]
      modifies b`tried, b`accepted, b`log
      ensures s.Accounts(b)
      ensures answer == b.answers.publish(|old(b.tried)|) && b.tried == old(b.tried) + [s.batch[idx]]
      ensures answer.Refused? ==> b.accepted == old(b.accepted) && b.log == old(b.log)
      ensures !answer.Refused? ==> b.log == old(b.log) + [Published(s.cachedMsgs[idx].value)]
    {
      hide Ledger, Traceable, PreparedOnce;
      LedgerPublishes(s.batch, s.completed[..], s.cursor, s.cursor, s.start, b.Books(), idx);
      TraceablePublish(s.cachedMsgs[..], s.log0, b.log, idx);
      answer := b.PublishAsync(s.cachedMsgs[idx].value);
    }

    method PublishBackpressureSlice(s: AsyncBatchState, b: Broker, futures: seq<PendingPublish>)
      returns (out: seq<PendingPublish>)
      requires s.Inv(Indices(futures)) && s.Accounts(b) && Grounded(s, b, futures) && EpisodesBalance()
      requires forall k :: 0 <= k < |futures| ==> !futures[k].answer.Refused?
      modifies this`activeBackpressure, this`episodesStarted
      modifies s`carried, s`dlqOnExit, s`savedErr, s`fate, s.backpressure
      modifies b`tried, b`accepted, b`log
      ensures s.Inv(Indices(out)) && s.Accounts(b) && Grounded(s, b, out) && EpisodesBalance()
      ensures forall k :: 0 <= k < |out| ==> !out[k].answer.Refused?
      ensures s.carried <= old(s.carried) && |old(b.tried)| <= |b.tried|
      ensures futures == [] && old(s.savedErr).None? && AckedIn(b.answers, |old(b.tried)|, |b.tried|) ==>
        s.savedErr.None? && s.carried == 0 && forall k :: 0 <= k < |out| ==> out[k].answer.Acked?
      ensures old(s.carried) == 0 ==>
        out == futures && s.savedErr == old(s.savedErr) && s.dlqOnExit == old(s.dlqOnExit) && b.log == old(b.log)
    {
      hide *;
      out := futures;
      s.StartFiltering(Indices(out));
      var w: nat, r: nat, n := 0, 0, s.carried;
      while r < n
        invariant w <= r <= n == old(s.carried) == s.carried <= s.backpressure.Length
        invariant s.Filtering(Indices(out), w, r, n) && s.Accounts(b) && Grounded(s, b, out) && EpisodesBalance()
        invariant forall k :: 0 <= k < |out| ==> !out[k].answer.Refused?
        invariant |old(b.tried)| <= |b.tried|
        invariant futures == [] && old(s.savedErr).None? && AckedIn(b.answers, |old(b.tried)|, |b.tried|) ==>
          s.savedErr.None? && w == 0 && forall k :: 0 <= k < |out| ==> out[k].answer.Acked?
        invariant n == 0 ==>
          out == futures && s.savedErr == old(s.savedErr) && s.dlqOnExit == old(s.dlqOnExit) && b.log == old(b.log)
      {
        ghost var before := |b.tried|;
        w, out := RetryCarried(s, b, out, w, r, n);
        AckedSplit(b.answers, |old(b.tried)|, before, |b.tried|);
        r := r + 1;
      }
      s.EndFiltering(Indices(out), w, n);
    }

    method RetryCarried(s: AsyncBatchState, b: Broker, futures: seq<PendingPublish>, w: nat, r: nat, n: nat)
      returns (w': nat, out: seq<PendingPublish>)
      requires s.Filtering(Indices(futures), w, r, n) && w <= r < n <= s.backpressure.Length
      requires s.Accounts(b) && Grounded(s, b, futures) && EpisodesBalance()
      modifies this`activeBackpressure, this`episodesStarted
      modifies s`dlqOnExit, s`savedErr, s`fate, s.backpressure
      modifies b`tried, b`accepted, b`log
      ensures s.Filtering(Indices(out), w', r + 1, n) && w' <= r + 1
      ensures s.Accounts(b) && Grounded(s, b, out) && EpisodesBalance() && |old(b.tried)| <= |b.tried|
      ensures out == futures ||
        (|out| == |futures| + 1 && out[..|futures|] == futures && !out[|futures|].answer.Refused?)
      ensures old(s.savedErr).None? && w' == w + 1 ==> activeBackpressure
      ensures old(s.savedErr).None? && AckedIn(b.answers, |old(b.tried)|, |b.tried|) ==>
        s.savedErr.None? && w' == w && (|out| > |futures| ==> out[|futures|].answer.Acked?)
    {
      hide AsyncBatchState.Filtering, AsyncBatchState.Accounts, AsyncBatchState.Shape, Grounds, IsFatal;
      hide IsBackpressureErr, Leaves;
      w', out := w, futures;
      var idx := s.backpressure[r];
      s.CarriedIsCached(Indices(out), w, r, n);
      if s.savedErr.Some? {
        s.Keep(Indices(out), w, r, n);
        w' := w + 1;
        return;
      }
      GroundsPublish(cfg, b.answers, s.batch, s.from, b.At(), out, s.cursor, s.dlqOnExit, idx);
      var answer := Republish(s, b, idx);
      FatalOrThrottled(answer);
      if !answer.Refused? {
        s.Launch(Indices(out), w, r, n);
        out := out + [PendingPublish(answer, idx)];
        assert Indices(out) == Indices(futures) + [idx];
      } else if IsBackpressureErr(answer.err) {
        BpStart();
        s.Keep(Indices(out), w, r, n);
        w' := w + 1;
      } else {
        s.Doom(Indices(out), w, r, n, answer.err);
      }
    }

    /** Prepares the record at the cursor and records what became of it. */
    method PrepareNext(s: AsyncBatchState, b: Broker, ghost inflight: seq<nat>) returns (p: Prepared)
      requires cfg.Accepted() && s.cfg == cfg && s.Inv(inflight) && s.Accounts(b) && Tally(s)
      requires s.cursor < |s.batch| == s.cachedMsgs.Length && s.cachedMsgs[s.cursor].None? && s.savedErr.None?
      modifies this`roundRobinCounter, this`prepared, b`pushes, b`signals, b`dead, b`log
      modifies s`cursor, s`fate, s`savedErr, s`made, s.cachedMsgs, s.completed
      ensures s.Inv(inflight) && s.Accounts(b) && Tally(s)
      ensures (p, Used(b)) == Prepare(cfg, b.answers, s.batch[old(s.cursor)], old(Used(b))) && old(b.pushes) <= b.pushes
      ensures s.cursor == old(s.cursor) + (if p.Diverted? then 1 else 0)
      ensures s.savedErr == (if p.Rejected? then Some(p.err) else None)
      ensures b.log == old(b.log) + (if p.Diverted? then [Buried(s.batch[old(s.cursor)])] else [])
      ensures b.dead == if p.Diverted? then old(b.dead) + multiset{s.batch[old(s.cursor)]} else old(b.dead)
      ensures p.Ready? ==> s.cachedMsgs[s.cursor] == Some(p.msg)
      ensures forall i :: 0 <= i < |s.batch| && (i != old(s.cursor) || !p.Ready?) ==>
        s.cachedMsgs[i] == old(s.cachedMsgs[i])
    {
      hide Ledger, Traceable, PreparedOnce, AsyncBatchState.Inv;
      s.InvGivesShape(inflight);
      ghost var done, cached, i, t, log := s.completed[..], s.cachedMsgs[..], s.cursor, b.Books(), b.log;
      p := PrepareMessage(s.batch[s.cursor], b);
      match p
      case Rejected(e) =>
        s.FailPrepare(inflight, e);
      case Diverted =>
        s.PassDiverted(inflight);
        assert s.completed[..] == done[i := true];
        LedgerSettles(s.batch, done, i, i + 1, s.start, t, i, true);
        TraceableBury(cached, s.log0, log, s.batch[i]);
      case Ready(msg) =>
        PreparedNext(s.batch, cached, s.made, i, msg);
        s.Cache(inflight, msg);
        assert s.cachedMsgs[..] == cached[i := Some(msg)];
        TraceableCache(cached, s.log0, log, i, msg);
    }

    /** One publish call for the record at the cursor, whose message is cached. */
    method PublishAtCursor(s: AsyncBatchState, b: Broker, futures: seq<PendingPublish>)
      returns (more: bool, out: seq<PendingPublish>)
      requires s.Inv(Indices(futures)) && s.Accounts(b) && Grounded(s, b, futures) && EpisodesBalance()
      requires s.cursor < |s.batch| == s.cachedMsgs.Length && s.cachedMsgs[s.cursor].Some? && s.savedErr.None?
      modifies this`activeBackpressure, this`episodesStarted
      modifies s`cursor, s`fate, s`savedErr, s`dlqOnExit, b`tried, b`accepted, b`log
      ensures s.Inv(Indices(out)) && s.Accounts(b) && Grounded(s, b, out) && EpisodesBalance()
      ensures more ==> s.savedErr.None? && s.cursor == old(s.cursor) + 1 && s.dlqOnExit == old(s.dlqOnExit)
      ensures |b.tried| == |old(b.tried)| + 1 && (!more && s.savedErr.None? ==> activeBackpressure)
      ensures var answer := b.answers.publish(|old(b.tried)|);
              out == (if answer.Refused? then futures else futures + [PendingPublish(answer, old(s.cursor))])
              && (more <==> !answer.Refused?)
      ensures more ==> b.log == old(b.log) + [Published(s.cachedMsgs[old(s.cursor)].value)]
    {
      hide Ledger, Traceable, PreparedOnce, AsyncBatchState.Inv, Grounds, IsFatal, IsBackpressureErr, Leaves, MadeOf;
      s.InvGivesShape(Indices(futures));
      var i := s.cursor;
      ghost var t, done, cached, log := b.Books(), s.completed[..], s.cachedMsgs[..], b.log;
      var msg := s.cachedMsgs[s.cursor].value;
      FitsItsSchema(cfg, msg);
      GroundsPublish(cfg, b.answers, s.batch, s.from, b.At(), futures, i, s.dlqOnExit, i);
      var answer := b.PublishAsync(msg);
      FatalOrThrottled(answer);
      more, out := false, futures;
      if answer.Refused? {
        if IsBackpressureErr(answer.err) {
          BpStart();
          return;
        }
        s.PassDoomed(Indices(futures), answer.err);
        LedgerAdvances(s.batch, done, i, i + 1, s.start, t);
        GroundsPass(cfg, b.answers, s.batch, s.from, b.At(), out, i, s.savedErr, s.dlqOnExit);
        return;
      }
      s.PassLaunched(Indices(futures));
      more, out := true, futures + [PendingPublish(answer, i)];
      assert Indices(out) == Indices(futures) + [i];
      LedgerPublishes(s.batch, done, i, i + 1, s.start, t, i);
      TraceablePublish(cached, s.log0, log, i);
      GroundsPass(cfg, b.answers, s.batch, s.from, b.At(), out, i, None, s.dlqOnExit);
    }

    /** So far the call did exactly what publishing record after record would have done. */
    ghost predicate Smooth(s: AsyncBatchState, b: Broker, c0: Counters)
      reads this`roundRobinCounter, s`cursor, s`savedErr, s.cachedMsgs, b`pushes, b`signals, b`log
    {
      && AllAcked(b.answers)
      && s.cachedMsgs.Length == |s.batch|
      && (forall i :: s.cursor <= i < |s.batch| ==> s.cachedMsgs[i].None?)
      && OnTrack(cfg, b.answers, s.batch, s.cursor, c0, s.log0, Used(b), b.log, s.savedErr)
    }

    method PublishNext(s: AsyncBatchState, b: Broker, futures: seq<PendingPublish>, ghost c0: Counters)
      returns (more: bool, out: seq<PendingPublish>)
      requires cfg.Accepted() && s.Inv(Indices(futures)) && s.Accounts(b) && Tally(s) && EpisodesBalance()
      requires Grounded(s, b, futures)
      requires s.cursor < |s.batch| == s.cachedMsgs.Length && s.savedErr.None?
      modifies this`roundRobinCounter, this`prepared, this`activeBackpressure, this`episodesStarted
      modifies b`tried, b`accepted, b`pushes, b`signals, b`dead, b`log
      modifies s`cursor, s`fate, s`savedErr, s`dlqOnExit, s`made, s.cachedMsgs, s.completed
      ensures s.Inv(Indices(out)) && s.Accounts(b) && Tally(s) && EpisodesBalance() && old(b.pushes) <= b.pushes
      ensures Grounded(s, b, out)
      ensures out == futures ||
        (|out| == |futures| + 1 && out[..|futures|] == futures && !out[|futures|].answer.Refused?)
      ensures more ==> s.savedErr.None? && s.cursor == old(s.cursor) + 1
      ensures |old(b.tried)| <= |b.tried|
      ensures AckedIn(b.answers, |old(b.tried)|, |b.tried|) ==>
        (more || s.savedErr.Some?) && (|out| > |futures| ==> out[|futures|].answer.Acked?)
      ensures old(Smooth(s, b, c0)) ==>
        Smooth(s, b, c0) && (more || s.savedErr.Some?) && s.dlqOnExit == old(s.dlqOnExit)
      ensures old(Smooth(s, b, c0)) ==> forall k :: |futures| <= k < |out| ==> out[k].answer.Acked?
    {
      hide AsyncBatchState.Inv, AsyncBatchState.Accounts, OnTrack, Grounded;
      more, out := false, futures;
      if s.cachedMsgs[s.cursor].None? {
        var p := PrepareStep(s, b, futures, c0);
        if p.Rejected? {
          return;
        }
        if p.Diverted? {
          more := true;
          return;
        }
      }
      more, out := PublishAtCursor(s, b, futures);
    }

    /** Prepares the record at the cursor; on a smooth run this is the next step of the
      * reference run, up to the publish. */
    method PrepareStep(s: AsyncBatchState, b: Broker, ghost futures: seq<PendingPublish>, ghost c0: Counters)
      returns (p: Prepared)
      requires cfg.Accepted() && s.Inv(Indices(futures)) && s.Accounts(b) && Tally(s) && Grounded(s, b, futures)
      requires s.cursor < |s.batch| == s.cachedMsgs.Length && s.cachedMsgs[s.cursor].None? && s.savedErr.None?
      modifies this`roundRobinCounter, this`prepared, b`pushes, b`signals, b`dead, b`log
      modifies s`cursor, s`fate, s`savedErr, s`made, s.cachedMsgs, s.completed
      ensures s.Inv(Indices(futures)) && s.Accounts(b) && Tally(s) && Grounded(s, b, futures)
      ensures old(b.pushes) <= b.pushes && s.cursor == old(s.cursor) + (if p.Diverted? then 1 else 0)
      ensures s.savedErr.Some? <==> p.Rejected?
      ensures p.Ready? ==> s.cachedMsgs[s.cursor] == Some(p.msg)
      ensures old(Smooth(s, b, c0)) && !p.Ready? ==> Smooth(s, b, c0)
      ensures old(Smooth(s, b, c0)) && p.Ready? ==>
        AllAcked(b.answers) && (forall i :: s.cursor < i < |s.batch| ==> s.cachedMsgs[i].None?) &&
        OnTrack(cfg, b.answers, s.batch, s.cursor + 1, c0, s.log0, Used(b), b.log + [Published(p.msg)], None)
    {
      hide AsyncBatchState.Accounts, AsyncBatchState.Inv, OnTrack, Grounds, Prepare, AllAcked;
      ghost var i, c, log := s.cursor, Used(b), b.log;
      if Smooth(s, b, c0) {
        OnTrackStep(cfg, b.answers, s.batch, i, c0, s.log0, c, log);
      }
      GroundsPrepare(cfg, b.answers, s.batch, s.from, b.At(), futures, i, s.dlqOnExit, c);
      p := PrepareNext(s, b, Indices(futures));
      assert !p.Diverted? ==> b.log == log;
    }

    method PublishFromCursor(s: AsyncBatchState, b: Broker, futures: seq<PendingPublish>, ghost c0: Counters)
      returns (out: seq<PendingPublish>)
      requires cfg.Accepted() && s.Inv(Indices(futures)) && s.Accounts(b) && Tally(s) && EpisodesBalance()
      requires Grounded(s, b, futures)
      requires forall k :: 0 <= k < |futures| ==> !futures[k].answer.Refused?
      modifies this`roundRobinCounter, this`prepared, this`activeBackpressure, this`episodesStarted
      modifies b`tried, b`accepted, b`pushes, b`signals, b`dead, b`log
      modifies s`cursor, s`fate, s`savedErr, s`dlqOnExit, s`made, s.cachedMsgs, s.completed
      ensures s.Inv(Indices(out)) && s.Accounts(b) && Tally(s) && EpisodesBalance() && old(b.pushes) <= b.pushes
      ensures Grounded(s, b, out)
      ensures forall k :: 0 <= k < |out| ==> !out[k].answer.Refused?
      ensures |old(b.tried)| <= |b.tried|
      ensures (forall k :: 0 <= k < |futures| ==> futures[k].answer.Acked?) ==>
        AckedIn(b.answers, |old(b.tried)|, |b.tried|) ==>
        (s.cursor == |s.batch| || s.savedErr.Some?) && forall k :: 0 <= k < |out| ==> out[k].answer.Acked?
      ensures old(Smooth(s, b, c0)) && futures == [] ==>
                Smooth(s, b, c0) && (s.cursor == |s.batch| || s.savedErr.Some?) && s.dlqOnExit == old(s.dlqOnExit)
                && forall k :: 0 <= k < |out| ==> out[k].answer.Acked?
    {
      hide AsyncBatchState.Inv, AsyncBatchState.Accounts, Smooth, Grounded, AckedIn;
      out := futures;
      s.InvGivesShape(Indices(out));
      while s.cursor < |s.batch| && s.savedErr.None?
        invariant s.cursor <= |s.batch| == s.cachedMsgs.Length && old(b.pushes) <= b.pushes
        invariant s.Inv(Indices(out)) && s.Accounts(b) && Tally(s) && Grounded(s, b, out) && EpisodesBalance()
        invariant forall k :: 0 <= k < |out| ==> !out[k].answer.Refused?
        invariant |old(b.tried)| <= |b.tried|
        invariant (forall k :: 0 <= k < |futures| ==> futures[k].answer.Acked?) ==>
          AckedIn(b.answers, |old(b.tried)|, |b.tried|) ==>
          forall k :: 0 <= k < |out| ==> out[k].answer.Acked?
        invariant old(Smooth(s, b, c0)) && futures == [] ==>
                    Smooth(s, b, c0) && s.dlqOnExit == old(s.dlqOnExit) && forall k :: 0 <= k < |out| ==>
                      out[k].answer.Acked?
        decreases |s.batch| - s.cursor
      {
        var more;
        ghost var before := |b.tried|;
        more, out := PublishNext(s, b, out, c0);
        AckedSplit(b.answers, |old(b.tried)|, before, |b.tried|);
        if !more {
          return;
        }
      }
    }

    method ClassifyFutures(s: AsyncBatchState, b: Broker, futures: seq<PendingPublish>)
      requires s.Inv(Indices(futures)) && s.Accounts(b) && Grounded(s, b, futures) && EpisodesBalance()
      requires forall k :: 0 <= k < |futures| ==> !futures[k].answer.Refused?
      modifies this`activeBackpressure, this`episodesStarted, b`acked
      modifies s`carried, s`fate, s`savedErr, s`dlqOnExit, s.completed, s.backpressure
      ensures s.Inv([]) && s.Accounts(b) && Grounded(s, b, []) && EpisodesBalance()
      ensures (forall k :: 0 <= k < |futures| ==> futures[k].answer.Acked?) ==>
                s.carried == old(s.carried) && s.dlqOnExit == old(s.dlqOnExit) && s.savedErr == old(s.savedErr)
    {
      hide AsyncBatchState.Inv, AsyncBatchState.Accounts, Grounded;
      assert futures[0..] == futures;
      for k := 0 to |futures|
        invariant s.Inv(Indices(futures[k..])) && s.Accounts(b) && Grounded(s, b, futures[k..]) && EpisodesBalance()
        invariant (forall j :: 0 <= j < |futures| ==> futures[j].answer.Acked?) ==>
                    s.carried == old(s.carried) && s.dlqOnExit == old(s.dlqOnExit) && s.savedErr == old(s.savedErr)
      {
        assert futures[k..][1..] == futures[k + 1..];
        ClassifyOne(s, b, futures[k], futures[k..]);
      }
      assert Indices(futures[|futures|..]) == [] && futures[|futures|..] == [];
    }

    /** Waits for the first publish in flight and records what became of it. */
    method ClassifyOne(s: AsyncBatchState, b: Broker, p: PendingPublish, ghost fs: seq<PendingPublish>)
      requires fs != [] && fs[0] == p && !p.answer.Refused?
      requires s.Inv(Indices(fs)) && s.Accounts(b) && Grounded(s, b, fs) && EpisodesBalance()
      modifies this`activeBackpressure, this`episodesStarted, b`acked
      modifies s`carried, s`fate, s`savedErr, s`dlqOnExit, s.completed, s.backpressure
      ensures s.Inv(Indices(fs[1..])) && s.Accounts(b) && Grounded(s, b, fs[1..]) && EpisodesBalance()
      ensures s.carried != old(s.carried) ==> activeBackpressure
      ensures p.answer.Acked? ==>
        s.carried == old(s.carried) && s.dlqOnExit == old(s.dlqOnExit) && s.savedErr == old(s.savedErr)
    {
      hide Ledger, Traceable, PreparedOnce, AsyncBatchState.Inv, Grounds, IsFatal, IsBackpressureErr, Leaves;
      ghost var rest := Indices(fs[1..]);
      assert Indices(fs) == [p.idx] + rest;
      s.InvGivesShape([p.idx] + rest);
      s.InFlightIndex(p.idx, rest);
      ghost var done, t := s.completed[..], b.Books();
      FatalOrThrottled(p.answer);
      GroundsAwait(cfg, b.answers, s.batch, s.from, b.At(), fs, s.cursor, s.savedErr, s.dlqOnExit);
      var err := b.Await(s.batch[p.idx], p.answer);
      if err.None? {
        s.SettleInFlight(p.idx, rest);
        LedgerSettles(s.batch, done, s.cursor, s.cursor, s.start, t, p.idx, false);
      } else if IsBackpressureErr(err.value) {
        BpStart();
        s.CarryInFlight(p.idx, rest);
      } else {
        s.DoomInFlight(p.idx, rest, err.value);
      }
    }

    /** Dead-letters every record at `idxs` that is not completed yet, up to the first refusal. */
    method DrainToDlq(s: AsyncBatchState, b: Broker, idxs: seq<nat>) returns (err: Option<Error>)
      requires s.Accounts(b) && Distinct(s.batch) && s.completed.Length == |s.batch|
      requires forall i :: i in idxs ==> i < |s.batch|
      modifies s.completed, b`pushes, b`dead, b`log
      ensures s.Accounts(b) && old(b.pushes) <= b.pushes
      ensures forall i :: 0 <= i < |s.batch| && old(s.completed[i]) ==> s.completed[i]
      ensures forall i :: 0 <= i < |s.batch| && s.completed[i] ==> old(s.completed[i]) || i in idxs
      ensures err.None? ==> forall i :: i in idxs ==> s.completed[i]
      ensures err.Some? ==> PushFailed(b.answers, old(b.At()), b.At(), err.value)
      ensures err.None? ==> PushesWork(b.answers, old(b.pushes), b.pushes)
      ensures forall r :: b.dead[r] > old(b.dead)[r] ==> Among(s.batch, idxs, r)
      ensures idxs == [] ==> err.None? && b.log == old(b.log)
    {
      hide Ledger, Traceable, PreparedOnce;
      for j := 0 to |idxs|
        invariant s.Accounts(b) && old(b.pushes) <= b.pushes
        invariant forall i :: 0 <= i < |s.batch| && old(s.completed[i]) ==> s.completed[i]
        invariant forall i :: 0 <= i < |s.batch| && s.completed[i] ==> old(s.completed[i]) || i in idxs
        invariant forall i :: 0 <= i < j ==> idxs[i] in idxs && s.completed[idxs[i]]
        invariant PushesWork(b.answers, old(b.pushes), b.pushes)
        invariant forall r :: b.dead[r] > old(b.dead)[r] ==> Among(s.batch, idxs, r)
        invariant idxs == [] ==> b.log == old(b.log)
      {
        var idx := idxs[j];
        assert idx in idxs;
        if s.completed[idx] {
          continue;
        }
        ghost var done, t, log := s.completed[..], b.Books(), b.log;
        err := b.PushToDlq(s.batch[idx]);
        if err.Some? {
          assert b.answers.dlq(b.pushes - 1) == err;
          return;
        }
        assert Among(s.batch, idxs, s.batch[idx]);
        s.completed[idx] := true;
        assert s.completed[..] == done[idx := true];
        LedgerSettles(s.batch, done, s.cursor, s.cursor, s.start, t, idx, true);
        TraceableBury(s.cachedMsgs[..], s.log0, log, s.batch[idx]);
      }
      err := None;
    }

    /** Dead-letters what the cause of the failure calls for and walks the prefix again. */
    method DrainLeftovers(s: AsyncBatchState, b: Broker, cause: Error) returns (dlqErr: Option<Error>)
      requires s.Inv([]) && s.Accounts(b)
      modifies s`lastAckedIdx, s.completed, b`pushes, b`dead, b`log
      ensures s.Accounts(b) && s.Settleable() && s.PrefixIsMaximal() && old(b.pushes) <= b.pushes
      ensures forall i :: s.cursor <= i < |s.batch| ==> !s.completed[i]
      ensures dlqErr.Some? ==> PushFailed(b.answers, old(b.At()), b.At(), dlqErr.value)
      ensures IsCtxErr(cause) ==> forall r :: b.dead[r] > old(b.dead)[r] ==> Among(s.batch, s.dlqOnExit, r)
      ensures dlqErr.None? && !IsCtxErr(cause) ==> forall i :: 0 <= i < s.cursor ==> s.completed[i]
      ensures s.carried == 0 && s.dlqOnExit == [] ==>
        dlqErr.None? && b.log == old(b.log) && forall i :: 0 <= i < s.cursor ==> s.completed[i]
    {
      hide Ledger, Traceable, PreparedOnce, AsyncBatchState.Inv;
      s.InvGivesShape([]);
      var dlqIdxs := s.dlqOnExit;
      if !IsCtxErr(cause) {
        dlqIdxs := dlqIdxs + s.backpressure[..s.carried];
      }
      s.Leftovers(dlqIdxs);
      if s.carried == 0 {
        assert s.dlqOnExit + s.Carry() == s.dlqOnExit;
      }
      dlqErr := DrainToDlq(s, b, dlqIdxs);
      s.AdvanceLastAckedIdx();
    }

    /** Settles what can be settled after a fatal error or a cancellation. */
    method CleanupAndReturn(s: AsyncBatchState, b: Broker, cause: Error) returns (last: Option<Record>, err: Error)
      requires s.Inv([]) && s.Accounts(b) && EpisodesBalance() && s.cfg == cfg
      modifies this`activeBackpressure, this`episodesStopped
      modifies s`lastAckedIdx, s.completed, b`pushes, b`dead, b`log
      ensures EpisodesBalance() && !activeBackpressure && old(b.pushes) <= b.pushes
      ensures Outcome(s.batch, s.start, b.Books(), s.lastAckedIdx) && last == LastOf(s.batch, s.lastAckedIdx)
      ensures OneMessagePerRecord(s.log0, b.log) && EachPreparedOnce(cfg, s.batch, s.log0, b.log, s.made)
      ensures err == cause ||
        (err.Joined? && err.first == cause && PushFailed(b.answers, old(b.At()), b.At(), err.second))
      ensures IsCtxErr(cause) ==> forall r :: b.dead[r] > old(b.dead)[r] ==> Among(s.batch, s.dlqOnExit, r)
      ensures err == cause && !IsCtxErr(cause) ==>
        s.lastAckedIdx == s.cursor - 1 && Untouched(s.batch, s.start, b.Books(), s.lastAckedIdx)
      ensures s.carried == 0 && s.dlqOnExit == [] ==>
        err == cause && b.log == old(b.log) && s.lastAckedIdx == s.cursor - 1
    {
      hide Ledger, Traceable, PreparedOnce, AsyncBatchState.Inv, Untouched, Outcome, OneMessagePerRecord,
        EachPreparedOnce;
      s.InvGivesShape([]);
      BpStop();
      var dlqErr := DrainLeftovers(s, b, cause);
      assert s.lastAckedIdx >= 0 ==> s.completed[s.lastAckedIdx];
      LedgerGivesOutcome(s.batch, s.completed[..], s.cursor, s.start, b.Books(), s.lastAckedIdx);
      TraceableGivesOneMessage(cfg, s.batch, s.cachedMsgs[..], s.log0, b.log, s.made);
      last := if s.lastAckedIdx >= 0 then Some(s.batch[s.lastAckedIdx]) else None;
      err := if dlqErr.Some? then Joined(cause, dlqErr.value) else cause;
      assert dlqErr.Some? ==> cause < err;
    }

    /** One pass of the retry loop, up to the termination tests. */
    method Pass(s: AsyncBatchState, b: Broker, ghost c0: Counters)
      requires cfg.Accepted() && s.Inv([]) && s.Accounts(b) && Tally(s) && Grounded(s, b, []) && EpisodesBalance()
      modifies this`roundRobinCounter, this`prepared, this`activeBackpressure, this`episodesStarted
      modifies b`tried, b`accepted, b`acked, b`pushes, b`signals, b`dead, b`log
      modifies s`cursor, s`carried, s`fate, s`savedErr, s`dlqOnExit, s`lastAckedIdx, s`made
      modifies s.cachedMsgs, s.completed, s.backpressure
      ensures s.Inv([]) && s.Accounts(b) && Tally(s) && s.PrefixIsMaximal() && EpisodesBalance()
      ensures Grounded(s, b, []) && old(b.pushes) <= b.pushes && |old(b.tried)| <= |b.tried|
      ensures old(s.savedErr).None? && AckedIn(b.answers, |old(b.tried)|, |b.tried|) ==>
        s.savedErr.Some? || (s.cursor == |s.batch| && s.carried == 0)
      ensures old(s.carried) == 0 && old(s.dlqOnExit) == [] && old(Smooth(s, b, c0)) ==>
                Smooth(s, b, c0) && s.carried == 0 && s.dlqOnExit == [] && (s.cursor == |s.batch| || s.savedErr.Some?)
    {
      hide AsyncBatchState.Inv, AsyncBatchState.Accounts, OnTrack, Grounded, AckedIn, Tally, EpisodesBalance, Smooth;
      assert Indices([]) == [];
      var futures := PublishBackpressureSlice(s, b, []);
      ghost var retried := |b.tried|;
      futures := PublishFromCursor(s, b, futures, c0);
      AckedSplit(b.answers, |old(b.tried)|, retried, |b.tried|);
      if |futures| > 0 {
        ClassifyFutures(s, b, futures);
      } else {
        assert Indices(futures) == [];
      }
      s.AdvanceInLoop();
    }

    /** How processBatchAsync leaves the books: `pushesWorked` says no dead-letter push of this call failed. */
    ghost predicate Settles(batch: seq<Record>, t0: Totals, t: Totals, last: Option<Record>, err: Option<Error>,
                            pushesWorked: bool)
    {
      exists k :: Outcome(batch, t0, t, k) && last == LastOf(batch, k)
        && (err.None? ==> k == |batch| - 1)
        && (err.Some? && !IsCtxErr(err.value) && (!err.value.Joined? || pushesWorked) ==> Untouched(batch, t0, t, k))
    }

    /** Leaves the retry loop through the cleanup. */
    method Leave(s: AsyncBatchState, b: Broker, cause: Error, ghost c0: Counters, ghost pushes0: nat)
      returns (last: Option<Record>, err: Option<Error>)
      requires s.Inv([]) && s.Accounts(b) && EpisodesBalance() && pushes0 <= b.pushes && Grounded(s, b, [])
      requires s.savedErr == Some(cause) || (cause == ContextDone && SawDone(s.ticks0, b.ticks, b.cancelTick))
      modifies this`activeBackpressure, this`episodesStopped
      modifies s`lastAckedIdx, s.completed, b`pushes, b`dead, b`log
      ensures EpisodesBalance() && !activeBackpressure && old(b.pushes) <= b.pushes && err.Some?
      ensures OneMessagePerRecord(s.log0, b.log) && EachPreparedOnce(cfg, s.batch, s.log0, b.log, s.made)
      ensures Settles(s.batch, s.start, b.Books(), last, err, PushesWork(b.answers, pushes0, b.pushes))
      ensures Ends(cfg, b.answers, s.batch, s.from, b.At(), SawDone(s.ticks0, b.ticks, b.cancelTick), err)
      ensures old(Smooth(s, b, c0)) && s.carried == 0 && s.dlqOnExit == [] && s.savedErr == Some(cause) ==>
                var run := RunTo(cfg, b.answers, s.batch, |s.batch|, c0);
                b.log == s.log0 + run.log && last == LastOf(s.batch, run.done - 1) && err == run.err
    {
      hide AsyncBatchState.Inv, Ledger, Traceable, PreparedOnce, Outcome, Untouched, OnTrack, OneMessagePerRecord,
        EachPreparedOnce, Grounds, Ends, Leaves, IsCtxErr, PushFailed;
      ghost var to := b.At();
      LooksThrough(cause);
      if Smooth(s, b, c0) && s.savedErr.Some? {
        OnTrackEnds(cfg, b.answers, s.batch, s.cursor, c0, s.log0, Used(b), b.log, s.savedErr);
      }
      var e;
      last, e := CleanupAndReturn(s, b, cause);
      err := Some(e);
      FailedPushFails(b.answers, to, b.At());
      EndsBadly(cfg, b.answers, s.batch, s.from, to, b.At(), [], s.cursor, s.savedErr, s.dlqOnExit,
        SawDone(s.ticks0, b.ticks, b.cancelTick), cause, e);
    }

    /** The call did just what publishing record after record does. */
    ghost predicate FollowsRun(s: AsyncBatchState, b: Broker, c0: Counters, last: Option<Record>, err: Option<Error>)
      requires cfg.Accepted() && s.batch != []
      reads b`log
    {
      var run := RunTo(cfg, b.answers, s.batch, |s.batch|, c0);
      b.log == s.log0 + run.log && last == LastOf(s.batch, run.done - 1) && err == run.err
    }

    /** What processBatchAsync owes its caller about a call that began with the counters c0. */
    ghost predicate Delivers(s: AsyncBatchState, b: Broker, c0: Counters, smooth: bool, last: Option<Record>,
                             err: Option<Error>)
      requires s.batch != []
      reads b, this`prepared, this`roundRobinCounter, s`made
    {
      && OneMessagePerRecord(s.log0, b.log) && EachPreparedOnce(cfg, s.batch, s.log0, b.log, s.made) && Tally(s)
      && Settles(s.batch, s.start, b.Books(), last, err, PushesWork(b.answers, c0.pushes, b.pushes))
      && Ends(cfg, b.answers, s.batch, s.from, b.At(), SawDone(s.ticks0, b.ticks, b.cancelTick), err)
      && InTime(b.answers, |s.from.tried|, s.ticks0, b.ticks, b.cancelTick)
      && (smooth ==> cfg.Accepted() && FollowsRun(s, b, c0, last, err))
    }

    /** The retry loop's state between two passes. */
    ghost predicate Looping(s: AsyncBatchState, b: Broker, c0: Counters, smooth: bool)
      reads this, s, s.cachedMsgs, s.completed, s.backpressure, b
    {
      && s.Inv([]) && s.Accounts(b) && Tally(s) && EpisodesBalance() && c0.pushes <= b.pushes && s.savedErr.None?
      && Grounded(s, b, []) && !SawDone(s.ticks0, b.ticks, b.cancelTick)
      && Patient(b.answers, |s.from.tried|, s.ticks0, |b.tried|, b.ticks)
      && (smooth ==> Smooth(s, b, c0) && s.carried == 0 && s.dlqOnExit == [] && b.ticks < b.cancelTick)
    }

    /** The state of a turn after its pass. */
    ghost predicate Turning(s: AsyncBatchState, b: Broker, c0: Counters, smooth: bool)
      reads this, s, s.cachedMsgs, s.completed, s.backpressure, b
    {
      && s.batch != [] && s.Inv([]) && s.Accounts(b) && Tally(s) && EpisodesBalance() && c0.pushes <= b.pushes
      && Grounded(s, b, []) && InTime(b.answers, |s.from.tried|, s.ticks0, b.ticks, b.cancelTick)
      && (smooth ==> Smooth(s, b, c0) && s.carried == 0 && s.dlqOnExit == [])
      && (smooth ==> (s.cursor == |s.batch| && b.ticks <= b.cancelTick) || s.savedErr.Some?)
    }

    /** A turn that ends the call with an error. */
    method EndTurn(s: AsyncBatchState, b: Broker, cause: Error, ghost c0: Counters, ghost smooth: bool)
      returns (last: Option<Record>, err: Option<Error>)
      requires cfg.Accepted() && Turning(s, b, c0, smooth) && (smooth ==> s.savedErr == Some(cause))
      requires s.savedErr == Some(cause) || (cause == ContextDone && SawDone(s.ticks0, b.ticks, b.cancelTick))
      modifies this`activeBackpressure, this`episodesStopped
      modifies s`lastAckedIdx, s.completed, b`pushes, b`dead, b`log
      ensures EpisodesBalance() && !activeBackpressure && c0.pushes <= b.pushes
      ensures Delivers(s, b, c0, smooth, last, err)
    {
      hide AsyncBatchState.Inv, AsyncBatchState.Accounts, OneMessagePerRecord, EachPreparedOnce, Settles, OnTrack;
      hide Routed, Grounds, Ends, SawDone, InTime;
      last, err := Leave(s, b, cause, c0, c0.pushes);
    }

    /** A turn that ends the call with every record settled. */
    method FinishTurn(s: AsyncBatchState, b: Broker, ghost c0: Counters, ghost smooth: bool)
      returns (last: Option<Record>)
      requires cfg.Accepted() && Turning(s, b, c0, smooth) && s.savedErr.None?
      requires s.cursor == |s.batch| && s.carried == 0 && !SawDone(s.ticks0, b.ticks, b.cancelTick)
      modifies this`activeBackpressure, this`episodesStopped
      ensures EpisodesBalance() && !activeBackpressure && c0.pushes <= b.pushes
      ensures Delivers(s, b, c0, smooth, last, None)
    {
      hide AsyncBatchState.Inv, AsyncBatchState.Accounts, OneMessagePerRecord, EachPreparedOnce, Settles, OnTrack;
      hide Routed, Grounds, Ends, SawDone, InTime;
      BatchIsDone(s, b, c0, PushesWork(b.answers, c0.pushes, b.pushes));
      EndedWell(s, b);
      BpStop();
      last := Some(s.batch[|s.batch| - 1]);
    }

    /** One turn of the retry loop: a pass, the termination tests and the interruptible wait. */
    method Turn(s: AsyncBatchState, b: Broker, ghost c0: Counters, ghost smooth: bool)
      returns (finished: bool, last: Option<Record>, err: Option<Error>)
      requires cfg.Accepted() && s.batch != [] && Looping(s, b, c0, smooth)
      modifies this, s, s.cachedMsgs, s.completed, s.backpressure
      modifies b`tried, b`accepted, b`acked, b`pushes, b`signals, b`ticks, b`dead, b`log
      ensures old(b.ticks) <= b.ticks
      ensures finished ==>
        EpisodesBalance() && !activeBackpressure && c0.pushes <= b.pushes && Delivers(s, b, c0, smooth, last, err)
      ensures !finished ==> Looping(s, b, c0, smooth) && old(b.ticks) < b.ticks <= b.cancelTick
    {
      hide AsyncBatchState.Inv, AsyncBatchState.Accounts, Tally, EpisodesBalance, Grounded, Smooth, Delivers, AckedIn;
      hide InTime, Patient;
      finished, last, err := true, None, None;
      ghost var tried0, ticks0, tried, ticks := |s.from.tried|, s.ticks0, |b.tried|, b.ticks;
      FirstLook(b.answers, tried0, ticks0, tried, ticks, b.cancelTick);
      Pass(s, b, c0);
      if s.savedErr.Some? {
        last, err := EndTurn(s, b, s.savedErr.value, c0, smooth);
        return;
      }
      var done := b.ContextIsDone();
      if done {
        last, err := EndTurn(s, b, ContextDone, c0, smooth);
        return;
      }
      if s.cursor == |s.batch| && s.carried == 0 {
        last := FinishTurn(s, b, c0, smooth);
        return;
      }
      SecondLook(b.answers, tried0, ticks0, tried, |b.tried|, ticks, b.cancelTick);
      PatientTurn(b.answers, tried0, ticks0, tried, |b.tried|, ticks);
      done := b.ContextIsDone();
      if done {
        last, err := EndTurn(s, b, ContextDone, c0, smooth);
        return;
      }
      finished := false;
    }

    method Begin(batch: seq<Record>, b: Broker, ghost c0: Counters, ghost smooth: bool) returns (s: AsyncBatchState)
      requires cfg.Accepted() && Distinct(batch) && EpisodesBalance() && Routed()
      requires c0 == Used(b) && (smooth ==> AllAcked(b.answers) && b.ticks < b.cancelTick)
      ensures fresh(s) && fresh(s.cachedMsgs) && fresh(s.completed) && fresh(s.backpressure)
      ensures s.batch == batch && s.start == b.Books() && s.log0 == b.log && s.before == prepared
      ensures s.cfg == cfg && s.from == b.At() && s.ticks0 == b.ticks && Looping(s, b, c0, smooth)
    {
      hide AsyncBatchState.Inv, AsyncBatchState.Accounts, OnTrack, AllAcked, Grounds, Quiet;
      s := new AsyncBatchState(batch, b, cfg, prepared);
      GroundsBegin(cfg, b.answers, batch, b.At());
      OnTrackStarts(cfg, b.answers, batch, c0, b.log);
    }

    method Drive(s: AsyncBatchState, b: Broker, ghost c0: Counters, ghost smooth: bool)
      returns (last: Option<Record>, err: Option<Error>)
      requires cfg.Accepted() && s.batch != [] && Looping(s, b, c0, smooth)
      modifies this, s, s.cachedMsgs, s.completed, s.backpressure
      modifies b`tried, b`accepted, b`acked, b`pushes, b`signals, b`ticks, b`dead, b`log
      ensures old(b.ticks) <= b.ticks
      ensures EpisodesBalance() && !activeBackpressure && Delivers(s, b, c0, smooth, last, err)
    {
      hide *;
      var finished;
      finished, last, err := false, None, None;
      while !finished
        invariant old(b.ticks) <= b.ticks
        invariant finished ==> EpisodesBalance() && !activeBackpressure && Delivers(s, b, c0, smooth, last, err)
        invariant !finished ==> Looping(s, b, c0, smooth)
        decreases !finished, b.cancelTick - b.ticks
      {
        finished, last, err := Turn(s, b, c0, smooth);
      }
    }

    /** Drives the batch to completion, to a fatal error or to cancellation. The returned
      * record ends the longest prefix of the batch whose records are all settled. */
    method ProcessBatchAsync(batch: seq<Record>, b: Broker) returns (last: Option<Record>, err: Option<Error>)
      requires cfg.Accepted() && Distinct(batch) && EpisodesBalance() && Routed()
      modifies this, b`tried, b`accepted, b`acked, b`pushes, b`signals, b`ticks, b`dead, b`log
      ensures EpisodesBalance() && (batch != [] ==> !activeBackpressure) && old(b.ticks) <= b.ticks
      ensures Routed() && old(prepared) <= prepared
      ensures OneMessagePerRecord(old(b.log), b.log)
      ensures EachPreparedOnce(cfg, batch, old(b.log), b.log, prepared[|old(prepared)|..])
      ensures Fair(cfg, prepared[|old(prepared)|..])
      ensures !cfg.dedup && cfg.subjects > 1 ==>
        roundRobinCounter == old(roundRobinCounter) + |prepared| - |old(prepared)|
      ensures batch == [] ==> last == None && err == None && b.Books() == old(b.Books())
      ensures batch != [] ==>
        Settles(batch, old(b.Books()), b.Books(), last, err, PushesWork(b.answers, old(b.pushes), b.pushes))
      ensures batch != [] ==>
        Ends(cfg, b.answers, batch, old(b.At()), b.At(), SawDone(old(b.ticks), b.ticks, b.cancelTick), err)
      ensures batch != [] ==> InTime(b.answers, |old(b.tried)|, old(b.ticks), b.ticks, b.cancelTick)
      ensures batch != [] && AllAcked(b.answers) && old(b.ticks) < b.cancelTick ==>
                var run := RunTo(cfg, b.answers, batch, |batch|, old(Used(b)));
                b.log == old(b.log) + run.log && last == LastOf(batch, run.done - 1) && err == run.err
    {
      hide Fair, Ends, MadeOf, Settles, RunTo, Looping, InTime;
      if |batch| == 0 {
        RoundRobinIsFair(cfg, prepared, |prepared|);
        return None, None;
      }
      hide OneMessagePerRecord, EachPreparedOnce;
      ghost var c0 := Used(b);
      ghost var smooth := AllAcked(b.answers) && b.ticks < b.cancelTick;
      var s := Begin(batch, b, c0, smooth);
      last, err := Drive(s, b, c0, smooth);
      assert prepared[|s.before|..] == s.made;
      RoundRobinIsFair(cfg, prepared, |s.before|);
    }

    lemma EndedWell(s: AsyncBatchState, b: Broker)
      requires Grounded(s, b, []) && s.cursor == |s.batch| && s.savedErr.None?
      ensures Ends(cfg, b.answers, s.batch, s.from, b.At(), false, None)
    {
      EndsWell(cfg, b.answers, s.batch, s.from, b.At());
    }

    lemma BatchIsDone(s: AsyncBatchState, b: Broker, c0: Counters, pushesWorked: bool)
      requires s.cfg == cfg && s.batch != [] && s.Inv([]) && s.Accounts(b)
      requires s.cursor == |s.batch| && s.carried == 0 && s.savedErr.None?
      ensures Settles(s.batch, s.start, b.Books(), Some(s.batch[|s.batch| - 1]), None, pushesWorked)
      ensures OneMessagePerRecord(s.log0, b.log) && EachPreparedOnce(cfg, s.batch, s.log0, b.log, s.made)
      ensures Smooth(s, b, c0) ==>
                var run := RunTo(cfg, b.answers, s.batch, |s.batch|, c0);
                b.log == s.log0 + run.log && run.done == |s.batch| && run.err.None?
    {
      hide AsyncBatchState.Inv, Ledger, Traceable, PreparedOnce, Outcome, OnTrack, OneMessagePerRecord,
        EachPreparedOnce;
      s.AllDone();
      s.InvGivesShape([]);
      LedgerGivesOutcome(s.batch, s.completed[..], s.cursor, s.start, b.Books(), |s.batch| - 1);
      TraceableGivesOneMessage(cfg, s.batch, s.cachedMsgs[..], s.log0, b.log, s.made);
      if Smooth(s, b, c0) {
        OnTrackEnds(cfg, b.answers, s.batch, s.cursor, c0, s.log0, Used(b), b.log, s.savedErr);
      }
    }

    /** The blocking mode: prepare, publish until acknowledged, else dead-letter, one by one. */
    method ProcessBatchSync(batch: seq<Record>, b: Broker) returns (last: Option<Record>, err: Option<Error>)
      requires cfg.Accepted() && Distinct(batch) && batch != [] && Routed()
      modifies this`roundRobinCounter, this`prepared
      modifies b`tried, b`accepted, b`acked, b`pushes, b`signals, b`dead, b`log
      ensures Routed() && old(prepared) <= prepared
      ensures EachPreparedOnce(cfg, batch, old(b.log), b.log, prepared[|old(prepared)|..])
      ensures SyncEnds(cfg, b.answers, batch, old(b.At()), b.At(), err.Some?)
      ensures exists k :: Outcome(batch, old(b.Books()), b.Books(), k) && last == LastOf(batch, k)
                && (err.None? ==> k == |batch| - 1) && (err.Some? ==> Untouched(batch, old(b.Books()), b.Books(), k))
      ensures AllAcked(b.answers) ==>
                var run := RunTo(cfg, b.answers, batch, |batch|, old(Used(b)));
                b.log == old(b.log) + run.log && last == LastOf(batch, run.done - 1) && err == run.err
    {
      hide Ledger, Outcome, Untouched, OnTrack, AllAcked, Distinct, RunTo, InOrder, EachPreparedOnce, Routed;
      hide SyncGrounds, SyncEnds;
      ghost var from := b.At();
      ghost var t0, c0, log0, n, p0, made := b.Books(), Used(b), b.log, |batch|, prepared, [];
      ghost var smooth := AllAcked(b.answers);
      InOrderStarts(cfg, batch, log0);
      SyncBegins(cfg, b.answers, batch, from);
      last, err := None, None;
      LedgerStarts(batch, t0);
      OnTrackStarts(cfg, b.answers, batch, c0, log0);
      for k := 0 to |batch|
        invariant last == LastOf(batch, k - 1) && err.None?
        invariant Ledger(batch, Upto(n, k), k, t0, b.Books())
        invariant SyncGrounds(cfg, b.answers, batch, from, b.At(), k)
        invariant Routed() && prepared == p0 + made && InOrder(cfg, batch, k, log0, b.log, made)
        invariant smooth ==> OnTrack(cfg, b.answers, batch, k, c0, log0, Used(b), b.log, None)
      {
        err, made := SyncOne(batch, b, k, t0, c0, log0, p0, made, from);
        if err.Some? {
          InOrderIsOnce(cfg, batch, k + 1, log0, b.log, made);
          LedgerGivesOutcome(batch, Upto(n, k), k, t0, b.Books(), k - 1);
          if smooth {
            OnTrackEnds(cfg, b.answers, batch, k, c0, log0, Used(b), b.log, err);
          }
          return;
        }
        last := Some(batch[k]);
      }
      LedgerGivesOutcome(batch, Upto(n, n), n, t0, b.Books(), n - 1);
      SyncDone(cfg, b.answers, batch, from, b.At());
      InOrderIsOnce(cfg, batch, n, log0, b.log, made);
      if smooth {
        OnTrackEnds(cfg, b.answers, batch, n, c0, log0, Used(b), b.log, None);
      }
    }

    method SyncOne(batch: seq<Record>, b: Broker, k: nat, ghost t0: Totals, ghost c0: Counters, ghost log0: seq<Event>,
                   ghost p0: seq<Message>, ghost made: seq<Message>, ghost from: Position)
      returns (err: Option<Error>, ghost made': seq<Message>)
      requires cfg.Accepted() && Distinct(batch) && k < |batch| && Ledger(batch, Upto(|batch|, k), k, t0, b.Books())
      requires Routed() && prepared == p0 + made && InOrder(cfg, batch, k, log0, b.log, made)
      requires SyncGrounds(cfg, b.answers, batch, from, b.At(), k)
      modifies this`roundRobinCounter, this`prepared
      modifies b`tried, b`accepted, b`acked, b`pushes, b`signals, b`dead, b`log
      ensures err.None? ==> SyncGrounds(cfg, b.answers, batch, from, b.At(), k + 1)
      ensures err.Some? ==> SyncEnds(cfg, b.answers, batch, from, b.At(), true)
      ensures err.None? ==> Ledger(batch, Upto(|batch|, k + 1), k + 1, t0, b.Books())
      ensures err.Some? ==> Ledger(batch, Upto(|batch|, k), k, t0, b.Books())
      ensures Routed() && prepared == p0 + made' && InOrder(cfg, batch, k + 1, log0, b.log, made')
      ensures AllAcked(b.answers) && old(OnTrack(cfg, b.answers, batch, k, c0, log0, Used(b), b.log, None)) ==>
                OnTrack(cfg, b.answers, batch, if err.None? then k + 1 else k, c0, log0, Used(b), b.log, err)
    {
      hide Ledger, OnTrack, InOrder, Routed, Distinct, RunTo, Prepare, Upto, SyncGrounds, SyncEnds;
      hide Misfit, Unpublishable, MadeOf;
      ghost var to := b.At();
      PrepareMeans(cfg, b.answers, batch[k], Used(b));
      ghost var t, c, log := b.Books(), Used(b), b.log;
      ghost var smooth := AllAcked(b.answers) && OnTrack(cfg, b.answers, batch, k, c0, log0, c, log, None);
      var p := PrepareMessage(batch[k], b);
      made' := made + MessagesOf(p);
      if smooth {
        OnTrackStep(cfg, b.answers, batch, k, c0, log0, c, log);
      }
      OneMoreInOrder(cfg, batch, k, log0, log, made, p);
      LedgerTakes(batch, k, t0, t);
      match p {
        case Rejected(e) => err := Some(e);
        case Diverted => err := None;
        case Ready(msg) => err := PublishOrBury(msg, b);
      }
      SyncStep(cfg, b.answers, batch, from, to, b.At(), k, err, p);
    }

    /** The blocking publish; a message that cannot be published is dead-lettered. */
    method PublishOrBury(msg: Message, b: Broker) returns (err: Option<Error>)
      modifies b`tried, b`accepted, b`acked, b`pushes, b`dead, b`log
      ensures var t, r := old(b.Books()), multiset{msg.origin};
        if b.answers.publish(|old(b.tried)|).Acked? then
          && err.None? && b.Books() == t.(accepted := t.accepted + r, acked := t.acked + r)
          && b.log == old(b.log) + [Published(msg)] && b.pushes == old(b.pushes)
        else if err.None? then
          b.Books() == t.(dead := t.dead + r) && b.log == old(b.log) + [Buried(msg.origin)]
        else
          b.Books() == t && b.log == old(b.log)
      ensures b.tried == old(b.tried) + [msg.origin]
      ensures !b.answers.publish(|old(b.tried)|).Acked? ==>
        b.pushes == old(b.pushes) + 1 && (err.None? <==> b.answers.dlq(old(b.pushes)).None?)
    {
      err := b.PublishUntilAck(msg);
      if err.Some? {
        var dlqErr := b.PushToDlq(msg.origin);
        if dlqErr.None? {
          err := None;
        }
      }
    }

    /** `async` is the shipped mode. */
    method ProcessBatch(async: bool, batch: seq<Record>, b: Broker) returns (last: Option<Record>, err: Option<Error>)
      requires cfg.Accepted() && Distinct(batch) && EpisodesBalance() && Routed()
      modifies this, b`tried, b`accepted, b`acked, b`pushes, b`signals, b`ticks, b`dead, b`log
      ensures EpisodesBalance() && old(b.ticks) <= b.ticks
      ensures Routed() && old(prepared) <= prepared
      ensures EachPreparedOnce(cfg, batch, old(b.log), b.log, prepared[|old(prepared)|..])
      ensures batch == [] ==> last == None && err == None && b.Books() == old(b.Books())
      ensures batch != [] ==>
        Settles(batch, old(b.Books()), b.Books(), last, err, PushesWork(b.answers, old(b.pushes), b.pushes))
      ensures batch != [] ==> if async
        then Ends(cfg, b.answers, batch, old(b.At()), b.At(), SawDone(old(b.ticks), b.ticks, b.cancelTick), err)
        else SyncEnds(cfg, b.answers, batch, old(b.At()), b.At(), err.Some?)
    {
      hide Ends, SyncEnds;
      if |batch| == 0 {
        return None, None;
      }
      if async {
        last, err := ProcessBatchAsync(batch, b);
      } else {
        hide Outcome, Untouched;
        last, err := ProcessBatchSync(batch, b);
      }
    }
  }

  /** When every publish is acknowledged at once and the context lives, the shipped
    * asynchronous mode does exactly what the blocking mode does: the same publishes and
    * dead-letter pushes in the same order, the same last record and the same error. */
  method ModesAgree(batch: seq<Record>, p: KafkaMsgProcessor, b: Broker, p': KafkaMsgProcessor, b': Broker)
    returns (last: Option<Record>, err: Option<Error>, last': Option<Record>, err': Option<Error>)
    requires p != p' && b != b' && p.cfg == p'.cfg && p.cfg.Accepted() && b.answers == b'.answers
    requires p.Used(b) == p'.Used(b') && p.EpisodesBalance() && p'.EpisodesBalance() && p.Routed() && p'.Routed()
    requires Distinct(batch) && batch != [] && AllAcked(b.answers) && b'.ticks < b'.cancelTick
    modifies p, b, p', b'
    ensures last == last' && err == err'
    ensures exists delta :: b.log == old(b.log) + delta && b'.log == old(b'.log) + delta
  {
    hide Ends, SyncEnds, EachPreparedOnce, Fair, Outcome, Untouched, OneMessagePerRecord, RunTo;
    last, err := p.ProcessBatchSync(batch, b);
    last', err' := p'.ProcessBatchAsync(batch, b');
  }

  /** The flags of a batch whose first k records are completed. */
  function Upto(n: nat, k: nat): (s: seq<bool>)
    ensures |s| == n && forall i :: 0 <= i < n ==> (s[i] <==> i < k)
  {
    seq(n, i => i < k)
  }

  /** The messages made of the first k records, each published at most after it was made. */
  ghost predicate InOrder(cfg: Config, batch: seq<Record>, k: nat, log0: seq<Event>, log: seq<Event>,
                          made: seq<Message>)
    requires k <= |batch|
  {
    && (forall j :: 0 <= j < |made| ==> made[j].origin in batch[..k] && MadeOf(cfg, made[j]))
    && (forall i, j :: 0 <= i < j < |made| ==> made[i].origin != made[j].origin)
    && log0 <= log
    && (forall j :: |log0| <= j < |log| && log[j].Published? ==> log[j].msg in made)
  }

  lemma InOrderStarts(cfg: Config, batch: seq<Record>, log0: seq<Event>)
    ensures InOrder(cfg, batch, 0, log0, log0, [])
  {
  }

  lemma InOrderIsOnce(cfg: Config, batch: seq<Record>, k: nat, log0: seq<Event>, log: seq<Event>, made: seq<Message>)
    requires k <= |batch| && InOrder(cfg, batch, k, log0, log, made)
    ensures EachPreparedOnce(cfg, batch, log0, log, made)
  {
  }

  function MessagesOf(p: Prepared): seq<Message> {
    if p.Ready? then [p.msg] else []
  }

  /** The record at k was looked at, and a message may have been made of it and published. */
  lemma OneMoreInOrder(cfg: Config, batch: seq<Record>, k: nat, log0: seq<Event>, log: seq<Event>, made: seq<Message>,
                       p: Prepared)
    requires Distinct(batch) && k < |batch| && InOrder(cfg, batch, k, log0, log, made)
    requires p.Ready? ==> p.msg.origin == batch[k] && MadeOf(cfg, p.msg)
    ensures InOrder(cfg, batch, k + 1, log0, log, made + MessagesOf(p))
    ensures InOrder(cfg, batch, k + 1, log0, log + [Buried(batch[k])], made + MessagesOf(p))
    ensures p.Ready? ==> InOrder(cfg, batch, k + 1, log0, log + [Published(p.msg)], made + MessagesOf(p))
  {
    assert batch[..k + 1] == batch[..k] + [batch[k]];
    assert batch[k] !in batch[..k];
  }

  /** The record at k was dead-lettered, or published and acknowledged. */
  lemma LedgerTakes(batch: seq<Record>, k: nat, t0: Totals, t: Totals)
    requires Distinct(batch) && k < |batch| && Ledger(batch, Upto(|batch|, k), k, t0, t)
    ensures var r := multiset{batch[k]};
      && Ledger(batch, Upto(|batch|, k + 1), k + 1, t0, t.(dead := t.dead + r))
      && Ledger(batch, Upto(|batch|, k + 1), k + 1, t0, t.(accepted := t.accepted + r, acked := t.acked + r))
  {
    hide Ledger, Distinct;
    var n, r := |batch|, multiset{batch[k]};
    UptoNext(n, k);
    LedgerSettles(batch, Upto(n, k), k, k + 1, t0, t, k, true);
    LedgerSettles(batch, Upto(n, k), k, k + 1, t0, t, k, false);
    LedgerPublishes(batch, Upto(n, k + 1), k + 1, k + 1, t0, t.(acked := t.acked + r), k);
  }

  lemma UptoNext(n: nat, k: nat)
    requires k < n
    ensures |Upto(n, k)| == n && !Upto(n, k)[k] && Upto(n, k)[k := true] == Upto(n, k + 1)
  {
  }

  lemma LedgerStarts(batch: seq<Record>, t: Totals)
    ensures Ledger(batch, Upto(|batch|, 0), 0, t, t)
  {
  }

  /** How many of the counter values in [0, m) select subject j out of `total`. */
  function Uses(m: nat, total: nat, j: nat): nat
    requires j < total
  {
    if m == 0 then 0 else Uses(m - 1, total, j) + (if (m - 1) % total == j then 1 else 0)
  }

  lemma {:induction false} UsesClosed(m: nat, total: nat, j: nat)
    requires j < total
    ensures Uses(m, total, j) == (m + total - 1 - j) / total
  {
    if m > 0 {
      UsesClosed(m - 1, total, j);
      StepOfDiv(m - 1, total, j);
    } else {
      assert (total - 1 - j) / total == 0;
    }
  }

  lemma StepOfDiv(m: nat, total: nat, j: nat)
    requires j < total
    ensures (m + total - j) / total == (m + total - 1 - j) / total + (if m % total == j then 1 else 0)
  {
    var q, r := m / total, m % total;
    assert m == q * total + r;
    if r < j {
      DivOf(m + total - j, total, q, r + total - j);
      DivOf(m + total - 1 - j, total, q, r + total - 1 - j);
    } else if r == j {
      DivOf(m + total - j, total, q + 1, 0);
      DivOf(m + total - 1 - j, total, q, total - 1);
    } else {
      DivOf(m + total - j, total, q + 1, r - j);
      DivOf(m + total - 1 - j, total, q + 1, r - 1 - j);
    }
  }

  lemma DivOf(x: nat, d: nat, q: nat, r: nat)
    requires 0 < d && r < d && x == q * d + r
    ensures x / d == q
  {
    var k := x / d - q;
    assert x == (x / d) * d + x % d;
    assert k * d == (x / d) * d - q * d == r - x % d;
    if k > 0 {
      AtLeastOnce(k, d);
    } else if k < 0 {
      AtLeastOnce(-k, d);
    }
  }

  lemma AtLeastOnce(k: nat, d: nat)
    requires k > 0
    ensures k * d >= d
  {
    assert k * d == (k - 1) * d + d && (k - 1) * d >= 0;
  }

  /** How many of the messages go to a subject. */
  ghost function Count(ms: seq<Message>, subject: Subject): nat {
    if ms == [] then 0 else Count(ms[..|ms| - 1], subject) + (if ms[|ms| - 1].subject == subject then 1 else 0)
  }

  /** In a stretch of the prepared messages a subject has what the counter values give it. */
  lemma {:induction false} CountsAreUses(cfg: Config, prepared: seq<Message>, lo: nat, hi: nat, j: nat)
    requires !cfg.dedup && cfg.subjects > 1 && j < cfg.subjects && RoundRobin(cfg, prepared) && lo <= hi <= |prepared|
    ensures Count(prepared[lo..hi], Numbered(j)) == Uses(hi, cfg.subjects, j) - Uses(lo, cfg.subjects, j)
  {
    if lo < hi {
      CountsAreUses(cfg, prepared, lo, hi - 1, j);
      var ms := prepared[lo..hi];
      assert ms[..|ms| - 1] == prepared[lo..hi - 1] && ms[|ms| - 1] == prepared[hi - 1];
    }
  }

  /** Without deduplication, two subjects get equally many of the messages up to one. */
  ghost predicate Fair(cfg: Config, ms: seq<Message>) {
    !cfg.dedup && cfg.subjects > 1 ==>
      forall j, j' :: 0 <= j < cfg.subjects && 0 <= j' < cfg.subjects ==>
        Count(ms, Numbered(j)) <= Count(ms, Numbered(j')) + 1
  }

  lemma SubjectsAreFair(cfg: Config, prepared: seq<Message>, lo: nat, hi: nat, j: nat, j': nat)
    requires !cfg.dedup && cfg.subjects > 1 && j < cfg.subjects && j' < cfg.subjects
    requires RoundRobin(cfg, prepared) && lo <= hi <= |prepared|
    ensures Count(prepared[lo..hi], Numbered(j)) <= Count(prepared[lo..hi], Numbered(j')) + 1
  {
    var total, n := cfg.subjects, hi - lo;
    CountsAreUses(cfg, prepared, lo, hi, j);
    CountsAreUses(cfg, prepared, lo, hi, j');
    UsesClosed(lo, total, j);
    UsesClosed(hi, total, j);
    UsesClosed(lo, total, j');
    UsesClosed(hi, total, j');
    DivSpread(lo + total - 1 - j, n, total);
    DivSpread(lo + total - 1 - j', n, total);
  }

  /** Round-robin routing is fair from any point of a processor's life on: over the messages
    * prepared by one call, or by any sequence of calls. */
  lemma RoundRobinIsFair(cfg: Config, prepared: seq<Message>, lo: nat)
    requires RoundRobin(cfg, prepared) && lo <= |prepared|
    ensures Fair(cfg, prepared[lo..])
  {
    assert prepared[lo..] == prepared[lo..|prepared|];
    if !cfg.dedup && cfg.subjects > 1 {
      forall j, j' | 0 <= j < cfg.subjects && 0 <= j' < cfg.subjects
        ensures Count(prepared[lo..], Numbered(j)) <= Count(prepared[lo..], Numbered(j')) + 1
      {
        SubjectsAreFair(cfg, prepared, lo, |prepared|, j, j');
      }
    }
  }

  lemma Distribute(a: int, b: int, c: int)
    ensures (a + b) * c == a * c + b * c
  {
  }

  /** The quotient of a sum, from quotients and remainders. */
  lemma DivOfSum(d: nat, a: nat, r: nat, b: nat, s: nat)
    requires r < d && s < d
    ensures ((a * d + r) + (b * d + s)) / d == if r + s < d then a + b else a + b + 1
  {
    Distribute(a, b, d);
    Distribute(a + b, 1, d);
    if r + s < d {
      DivOf((a * d + r) + (b * d + s), d, a + b, r + s);
    } else {
      DivOf((a * d + r) + (b * d + s), d, a + b + 1, r + s - d);
    }
  }

  lemma DivMod(x: nat, d: nat)
    requires 0 < d
    ensures x == (x / d) * d + x % d && 0 <= x / d && 0 <= x % d < d
  {
  }

  lemma DivSpread(x: nat, n: nat, d: nat)
    requires 0 < d
    ensures n / d <= (x + n) / d - x / d <= n / d + 1
  {
    DivMod(x, d);
    DivMod(n, d);
    DivOfSum(d, x / d, x % d, n / d, n % d);
  }
}
