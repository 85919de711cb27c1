/** The sink's worker pool: a batch is cut into jobs, all jobs are sent before any result is
  * collected, and the results are put back in job order. */
module WorkerPool {
  import opened Batches
  import opened SinkModel
  import opened SinkServices
  import opened Wrappers

  datatype Job = Job(id: nat, messages: seq<Msg>)
  datatype JobResult = JobResult(id: nat, processed: seq<Processed>)

  function ChunkSize(n: nat, w: nat): (c: nat)
    requires w > 0
    ensures c > 0
  {
    if n / w == 0 then 1 else n / w
  }

  /** If the last of `jobs` jobs starts inside the batch, there are at most 2w - 1 of them. */
  lemma JobBound(n: nat, w: nat, jobs: nat)
    requires w > 0 && (jobs > 0 ==> (jobs - 1) * ChunkSize(n, w) < n)
    ensures jobs <= 2 * w - 1
  {
    var c := ChunkSize(n, w);
    ChunksCover(n, w);
    if jobs >= 2 * w {
      Monotone(2 * w - 1, jobs - 1, c);
    }
  }

  /** `jobs` jobs of `size` messages were sent, and the next one starts at `i`. */
  ghost predicate Begun(n: nat, size: nat, i: nat, jobs: nat) {
    && (jobs > 0 ==> (jobs - 1) * size < n)
    && (i < n ==> i == jobs * size)
  }

  lemma BeginsNext(n: nat, size: nat, i: nat, jobs: nat, end: nat)
    requires Begun(n, size, i, jobs) && i < n && end == if i + size > n then n else i + size
    ensures Begun(n, size, end, jobs + 1)
  {
    assert (jobs + 1) * size == jobs * size + size;
  }

  lemma BegunBound(n: nat, w: nat, i: nat, jobs: nat)
    requires w > 0 && Begun(n, ChunkSize(n, w), i, jobs)
    ensures jobs <= 2 * w - 1
  {
    hide ChunkSize;
    JobBound(n, w, jobs);
  }

  lemma ChunksCover(n: nat, w: nat)
    requires w > 0
    ensures n <= (2 * w - 1) * ChunkSize(n, w)
  {
    var c := ChunkSize(n, w);
    if n / w > 0 {
      assert n == w * c + n % w;
      Monotone(1, c, w - 1);
      Distributes(w, w - 1, c);
    } else {
      assert n == w * 0 + n % w;
    }
  }

  lemma Distributes(a: nat, b: nat, c: nat)
    ensures (a + b) * c == a * c + c * b
  {
  }

  lemma Monotone(a: nat, b: nat, c: nat)
    requires a <= b
    ensures a * c <= b * c
  {
  }

  /** The bound is met: with 2w - 1 messages the job number 2w - 1 starts inside the batch. */
  lemma JobBoundIsTight(w: nat)
    requires w > 0
    ensures ((2 * w - 1) - 1) * ChunkSize(2 * w - 1, w) < 2 * w - 1
  {
    assert (2 * w - 1) / w == 1;
  }

  /** Dispatch cannot send, no worker can take, and no worker can hand over. */
  ghost predicate AllFull(n: nat, w: nat, sent: nat, queued: nat, busy: nat, done: nat) {
    && sent == queued + busy + done && sent < n && queued <= w && busy <= w && done <= w
    && queued == w && (queued > 0 ==> busy == w) && (busy > 0 ==> done == w)
  }

  /** Sending everything before collecting anything can block exactly with more than 3w jobs. */
  lemma StuckIff(n: nat, w: nat)
    requires w > 0
    ensures (exists sent, queued, busy, done :: AllFull(n, w, sent, queued, busy, done)) <==> n > 3 * w
  {
    if n > 3 * w {
      assert AllFull(n, w, 3 * w, w, w, w);
    }
  }

  ghost function UpTo(n: nat): seq<nat> {
    if n == 0 then [] else UpTo(n - 1) + [n - 1]
  }

  lemma {:induction false} UpToCount(n: nat, k: nat)
    ensures |UpTo(n)| == n && multiset(UpTo(n))[k] == if k < n then 1 else 0
  {
    if n > 0 {
      UpToCount(n - 1, k);
    }
  }

  ghost function JobIds(jobs: seq<Job>): (s: seq<nat>)
    ensures |s| == |jobs|
  {
    seq(|jobs|, i requires 0 <= i < |jobs| => jobs[i].id)
  }

  ghost function ResultIds(rs: seq<JobResult>): (s: seq<nat>)
    ensures |s| == |rs|
  {
    seq(|rs|, i requires 0 <= i < |rs| => rs[i].id)
  }

  /** Where the jobs of one dispatch are; job k carries `chunks[k]`. */
  datatype Flight = Flight(chunks: seq<seq<Msg>>, queued: seq<Job>, busy: seq<Job>, done: seq<JobResult>,
    got: map<nat, seq<Processed>>)

  /** Every job on the way carries its own messages, every result the verdicts on them. */
  ghost predicate Right(f: Flight, configs: map<string, Config>, mapper: Mapper) {
    && (forall i :: 0 <= i < |f.queued| ==>
      f.queued[i].id < |f.chunks| && f.queued[i].messages == f.chunks[f.queued[i].id])
    && (forall i :: 0 <= i < |f.busy| ==> f.busy[i].id < |f.chunks| && f.busy[i].messages == f.chunks[f.busy[i].id])
    && (forall i :: 0 <= i < |f.done| ==>
      f.done[i].id < |f.chunks| && AllFit(f.chunks[f.done[i].id], f.done[i].processed, configs, mapper))
    && (forall k :: k in f.got ==> k < |f.chunks| && AllFit(f.chunks[k], f.got[k], configs, mapper))
  }

  ghost function Ids(f: Flight): multiset<nat> {
    multiset(JobIds(f.queued)) + multiset(JobIds(f.busy)) + multiset(ResultIds(f.done)) + multiset(f.got.Keys)
  }

  /** Every job sent is in exactly one place. */
  ghost predicate Track(f: Flight, configs: map<string, Config>, mapper: Mapper) {
    Right(f, configs, mapper) && Ids(f) == multiset(UpTo(|f.chunks|))
  }

  lemma Passed(a: multiset<nat>, b: multiset<nat>, c: multiset<nat>, d: multiset<nat>, x: nat)
    ensures (a + multiset{x}) + b + c + d == a + (b + multiset{x}) + c + d
    ensures (a + multiset{x}) + b + c + d == a + b + c + d + multiset{x}
    ensures a + (b + multiset{x}) + c + d == a + b + (c + multiset{x}) + d
    ensures a + b + (c + multiset{x}) + d == a + b + c + (d + multiset{x})
  {
  }

  lemma SendKeepsIds(f: Flight, chunk: seq<Msg>)
    requires Ids(f) == multiset(UpTo(|f.chunks|))
    ensures Ids(f.(chunks := f.chunks + [chunk], queued := f.queued + [Job(|f.chunks|, chunk)])) ==
      multiset(UpTo(|f.chunks| + 1))
  {
    var n := |f.chunks|;
    assert JobIds(f.queued + [Job(n, chunk)]) == JobIds(f.queued) + [n];
    Passed(multiset(JobIds(f.queued)), multiset(JobIds(f.busy)), multiset(ResultIds(f.done)), multiset(f.got.Keys), n);
  }

  lemma TrackSend(f: Flight, configs: map<string, Config>, mapper: Mapper, chunk: seq<Msg>)
    requires Track(f, configs, mapper)
    ensures Track(f.(chunks := f.chunks + [chunk], queued := f.queued + [Job(|f.chunks|, chunk)]), configs, mapper)
  {
    hide AllFit, Ids;
    SendKeepsIds(f, chunk);
  }

  lemma TakeKeepsIds(f: Flight)
    requires f.queued != []
    ensures Ids(f.(queued := f.queued[1..], busy := f.busy + [f.queued[0]])) == Ids(f)
  {
    var job := f.queued[0];
    assert JobIds(f.queued) == [job.id] + JobIds(f.queued[1..]);
    assert JobIds(f.busy + [job]) == JobIds(f.busy) + [job.id];
    Passed(multiset(JobIds(f.queued[1..])), multiset(JobIds(f.busy)), multiset(ResultIds(f.done)),
      multiset(f.got.Keys), job.id);
  }

  lemma TrackTake(f: Flight, configs: map<string, Config>, mapper: Mapper)
    requires f.queued != [] && Track(f, configs, mapper)
    ensures Track(f.(queued := f.queued[1..], busy := f.busy + [f.queued[0]]), configs, mapper)
  {
    hide AllFit, UpTo, Ids;
    TakeKeepsIds(f);
  }

  lemma WithoutOne(jobs: seq<Job>, k: nat)
    requires k < |jobs|
    ensures multiset(JobIds(jobs)) == multiset(JobIds(jobs[..k] + jobs[k + 1..])) + multiset{jobs[k].id}
  {
    var ids := JobIds(jobs);
    assert ids == ids[..k] + [jobs[k].id] + ids[k + 1..];
    assert JobIds(jobs[..k] + jobs[k + 1..]) == ids[..k] + ids[k + 1..];
  }

  lemma FinishKeepsIds(f: Flight, k: nat, processed: seq<Processed>)
    requires k < |f.busy|
    ensures Ids(f.(busy := f.busy[..k] + f.busy[k + 1..], done := f.done + [JobResult(f.busy[k].id, processed)])) ==
      Ids(f)
  {
    var rest, id := f.busy[..k] + f.busy[k + 1..], f.busy[k].id;
    WithoutOne(f.busy, k);
    assert ResultIds(f.done + [JobResult(id, processed)]) == ResultIds(f.done) + [id];
    Passed(multiset(JobIds(f.queued)), multiset(JobIds(rest)), multiset(ResultIds(f.done)), multiset(f.got.Keys), id);
  }

  lemma TrackFinish(f: Flight, configs: map<string, Config>, mapper: Mapper, k: nat, processed: seq<Processed>)
    requires k < |f.busy| && Track(f, configs, mapper) && AllFit(f.busy[k].messages, processed, configs, mapper)
    ensures Track(f.(busy := f.busy[..k] + f.busy[k + 1..], done := f.done + [JobResult(f.busy[k].id, processed)]),
      configs, mapper)
  {
    hide AllFit, UpTo, Ids;
    FinishKeepsIds(f, k, processed);
  }

  lemma CollectKeepsIds(f: Flight)
    requires f.done != [] && Ids(f) == multiset(UpTo(|f.chunks|)) && f.done[0].id < |f.chunks|
    ensures f.done[0].id !in f.got
    ensures Ids(f.(done := f.done[1..], got := f.got[f.done[0].id := f.done[0].processed])) == Ids(f)
  {
    hide UpTo;
    var r := f.done[0];
    var rest, got := ResultIds(f.done[1..]), f.got[r.id := r.processed];
    assert ResultIds(f.done) == [r.id] + rest;
    UpToCount(|f.chunks|, r.id);
    assert Ids(f)[r.id] >= multiset(ResultIds(f.done))[r.id] + multiset(f.got.Keys)[r.id];
    assert got.Keys == f.got.Keys + {r.id};
    assert multiset(got.Keys) == multiset(f.got.Keys) + multiset{r.id};
    Passed(multiset(JobIds(f.queued)), multiset(JobIds(f.busy)), multiset(rest), multiset(f.got.Keys), r.id);
  }

  lemma TrackCollect(f: Flight, configs: map<string, Config>, mapper: Mapper)
    requires f.done != [] && Track(f, configs, mapper)
    ensures f.done[0].id !in f.got
    ensures Track(f.(done := f.done[1..], got := f.got[f.done[0].id := f.done[0].processed]), configs, mapper)
  {
    hide AllFit, UpTo, Ids;
    CollectKeepsIds(f);
  }

  /** The jobs on the way are the jobs sent less the jobs collected. */
  lemma TrackCounts(f: Flight, configs: map<string, Config>, mapper: Mapper)
    requires Track(f, configs, mapper)
    ensures |f.queued| + |f.busy| + |f.done| + |f.got.Keys| == |f.chunks|
  {
    hide Right;
    UpToCount(|f.chunks|, 0);
    assert |Ids(f)| == |f.queued| + |f.busy| + |f.done| + |f.got.Keys|;
  }

  /** With nothing on the way, every job was collected. */
  lemma TrackComplete(f: Flight, configs: map<string, Config>, mapper: Mapper, k: nat)
    requires Track(f, configs, mapper) && f.queued == f.busy == [] && f.done == [] && k < |f.chunks|
    ensures k in f.got && AllFit(f.chunks[k], f.got[k], configs, mapper)
  {
    UpToCount(|f.chunks|, k);
    assert Ids(f) == multiset(f.got.Keys);
    assert k in multiset(f.got.Keys);
  }

  /** A verdict is what configuration and mapping say, except where the configuration of the
    * message's own version could not be read. */
  ghost predicate ExactUnless(down: set<string>, ps: seq<Processed>, configs: map<string, Config>, mapper: Mapper) {
    forall i :: 0 <= i < |ps| ==> ps[i] == Prepared(ps[i].msg, configs, mapper) || ps[i].msg.version in down
  }

  ghost predicate OwnVerdicts(ps: seq<Processed>, configs: map<string, Config>, mapper: Mapper) {
    forall i :: 0 <= i < |ps| ==> Fits(ps[i].msg, ps[i], configs, mapper)
  }

  lemma NothingYet(configs: map<string, Config>, mapper: Mapper)
    ensures Flatten<Msg>([]) == [] && AllFit([], [], configs, mapper) && OwnVerdicts([], configs, mapper) &&
      Exact([], configs, mapper)
  {
  }

  lemma OwnAppend(ps: seq<Processed>, more: seq<Processed>, configs: map<string, Config>, mapper: Mapper)
    requires OwnVerdicts(ps, configs, mapper)
    requires more == [] || OwnVerdicts(more, configs, mapper)
    ensures OwnVerdicts(ps + more, configs, mapper)
    ensures Exact(ps, configs, mapper) && (more == [] || Exact(more, configs, mapper)) ==>
      Exact(ps + more, configs, mapper)
  {
  }

  lemma AllFitAppend(ms: seq<Msg>, ps: seq<Processed>, ms': seq<Msg>, ps': seq<Processed>,
                     configs: map<string, Config>, mapper: Mapper)
    requires AllFit(ms, ps, configs, mapper) && AllFit(ms', ps', configs, mapper)
    ensures AllFit(ms + ms', ps + ps', configs, mapper)
  {
  }

  lemma FitIsOwn(ms: seq<Msg>, ps: seq<Processed>, configs: map<string, Config>, mapper: Mapper)
    requires AllFit(ms, ps, configs, mapper)
    ensures OwnVerdicts(ps, configs, mapper)
  {
  }

  // ----- One dispatch as a transition system -----

  datatype Setting = Setting(workers: nat, configs: map<string, Config>, mapper: Mapper)

  /** The channels, the workers' hands and the dispatcher's variables. */
  datatype Traffic = Traffic(i: nat, jobs: nat, queued: seq<Job>, busy: seq<Job>, done: seq<JobResult>,
                             got: map<nat, seq<Processed>>, collected: nat)

  function ChunkEnd(s: Setting, n: nat, i: nat): (end: nat)
    requires s.workers > 0 && i < n
    ensures i < end <= n
  {
    if i + ChunkSize(n, s.workers) > n then n else i + ChunkSize(n, s.workers)
  }

  ghost predicate Sends(s: Setting, messages: seq<Msg>, t: Traffic, t': Traffic) {
    && s.workers > 0 && t.i < |messages| && |t.queued| < s.workers
    && var end := ChunkEnd(s, |messages|, t.i);
      t' == t.(i := end, jobs := t.jobs + 1, queued := t.queued + [Job(t.jobs, messages[t.i..end])])
  }

  ghost predicate Takes(s: Setting, t: Traffic, t': Traffic) {
    t.queued != [] && |t.busy| < s.workers && t' == t.(queued := t.queued[1..], busy := t.busy + [t.queued[0]])
  }

  ghost predicate HandsOver(s: Setting, t: Traffic, t': Traffic, k: nat, ps: seq<Processed>) {
    && k < |t.busy| && |t.done| < s.workers && AllFit(t.busy[k].messages, ps, s.configs, s.mapper)
    && t' == t.(busy := t.busy[..k] + t.busy[k + 1..], done := t.done + [JobResult(t.busy[k].id, ps)])
  }

  ghost predicate Collects(messages: seq<Msg>, t: Traffic, t': Traffic) {
    && t.i == |messages| && t.collected < t.jobs && t.done != []
    && t' == t.(got := t.got[t.done[0].id := t.done[0].processed], done := t.done[1..], collected := t.collected + 1)
  }

  /** The dispatcher sends or, once all is sent, collects; a worker takes a job or hands over
    * some verdicts on the messages of its job. */
  ghost predicate Moves(s: Setting, messages: seq<Msg>, t: Traffic, t': Traffic) {
    || Sends(s, messages, t, t')
    || Takes(s, t, t')
    || (exists k, ps :: HandsOver(s, t, t', k, ps))
    || Collects(messages, t, t')
  }

  ghost predicate Path(s: Setting, messages: seq<Msg>, ts: seq<Traffic>) {
    ts != [] && forall k :: 0 <= k < |ts| - 1 ==> Moves(s, messages, ts[k], ts[k + 1])
  }

  function Last(ts: seq<Traffic>): Traffic
    requires ts != []
  {
    ts[|ts| - 1]
  }

  /** A dispatch begins; the channels may hold what an earlier one left. */
  ghost predicate Begins(t: Traffic) {
    t.i == t.jobs == t.collected == 0 && t.got == map[]
  }

  ghost predicate NothingLeft(t: Traffic) {
    t.queued == [] && t.busy == [] && t.done == []
  }

  ghost predicate Finished(messages: seq<Msg>, t: Traffic) {
    t.i == |messages| && t.collected == t.jobs
  }

  /** Neither the dispatcher nor a worker can move, and the dispatch is not finished. */
  ghost predicate Stuck(s: Setting, messages: seq<Msg>, t: Traffic) {
    && !Finished(messages, t)
    && (t.i < |messages| ==> |t.queued| >= s.workers)
    && (t.queued == [] || |t.busy| >= s.workers)
    && (t.busy == [] || |t.done| >= s.workers)
    && !(t.i == |messages| && t.collected < t.jobs && t.done != [])
  }

  /** The verdicts in job order; a job without a result has none. */
  function Assembled(got: map<nat, seq<Processed>>, jobs: nat): seq<Processed> {
    if jobs == 0 then [] else Assembled(got, jobs - 1) + (if jobs - 1 in got then got[jobs - 1] else [])
  }

  /** Not blocked for good, and when finished the verdicts are those on the messages, in their
    * order, with nothing left behind. */
  ghost predicate Good(s: Setting, messages: seq<Msg>, t: Traffic) {
    && !Stuck(s, messages, t)
    && (Finished(messages, t) ==> NothingLeft(t) && AllFit(messages, Assembled(t.got, t.jobs), s.configs, s.mapper))
  }

  lemma PathGrows(s: Setting, messages: seq<Msg>, ts: seq<Traffic>, t: Traffic)
    requires ts != [] && Path(s, messages, ts) && Moves(s, messages, Last(ts), t)
    ensures Path(s, messages, ts + [t])
  {
    hide Moves;
    var all := ts + [t];
    forall k | 0 <= k < |all| - 1 ensures Moves(s, messages, all[k], all[k + 1]) {
      assert all[k] == ts[k] && all[k + 1] == if k + 1 < |ts| then ts[k + 1] else t;
    }
  }

  // ----- From an idle pool -----

  function InFlight(chunks: seq<seq<Msg>>, t: Traffic): Flight {
    Flight(chunks, t.queued, t.busy, t.done, t.got)
  }

  /** Job k carries chunk k, every job sent is in one place, and the chunks make up what was sent. */
  ghost predicate OnCourse(s: Setting, messages: seq<Msg>, chunks: seq<seq<Msg>>, t: Traffic) {
    && s.workers > 0 && Track(InFlight(chunks, t), s.configs, s.mapper)
    && Begun(|messages|, ChunkSize(|messages|, s.workers), t.i, t.jobs)
    && t.i <= |messages| && t.jobs == |chunks| && Flatten(chunks) == messages[..t.i]
    && t.collected == |t.got.Keys| && (t.i < |messages| ==> t.got == map[])
    && |t.queued| <= s.workers && |t.busy| <= s.workers && |t.done| <= s.workers
  }

  lemma CourseBegins(s: Setting, messages: seq<Msg>, t: Traffic)
    requires s.workers > 0 && Begins(t) && NothingLeft(t)
    ensures OnCourse(s, messages, [], t)
  {
  }

  lemma CourseSends(s: Setting, messages: seq<Msg>, chunks: seq<seq<Msg>>, t: Traffic, t': Traffic)
    returns (chunks': seq<seq<Msg>>)
    requires OnCourse(s, messages, chunks, t) && Sends(s, messages, t, t')
    ensures OnCourse(s, messages, chunks', t')
  {
    hide Track, Flatten, Begun, ChunkSize;
    var n, size, chunk := |messages|, ChunkSize(|messages|, s.workers), messages[t.i..t'.i];
    assert messages[..t.i] + chunk == messages[..t'.i];
    FlattenAppend(chunks, chunk);
    BeginsNext(n, size, t.i, t.jobs, t'.i);
    TrackSend(InFlight(chunks, t), s.configs, s.mapper, chunk);
    chunks' := chunks + [chunk];
  }

  lemma CourseTakes(s: Setting, messages: seq<Msg>, chunks: seq<seq<Msg>>, t: Traffic, t': Traffic)
    requires OnCourse(s, messages, chunks, t) && Takes(s, t, t')
    ensures OnCourse(s, messages, chunks, t')
  {
    hide Track, Flatten, Begun, ChunkSize;
    TrackTake(InFlight(chunks, t), s.configs, s.mapper);
  }

  lemma CourseHandsOver(s: Setting, messages: seq<Msg>, chunks: seq<seq<Msg>>, t: Traffic, t': Traffic, k: nat,
                        ps: seq<Processed>)
    requires OnCourse(s, messages, chunks, t) && HandsOver(s, t, t', k, ps)
    ensures OnCourse(s, messages, chunks, t')
  {
    hide Track, Flatten, Begun, ChunkSize, AllFit;
    TrackFinish(InFlight(chunks, t), s.configs, s.mapper, k, ps);
  }

  lemma CourseCollects(s: Setting, messages: seq<Msg>, chunks: seq<seq<Msg>>, t: Traffic, t': Traffic)
    requires OnCourse(s, messages, chunks, t) && Collects(messages, t, t')
    ensures OnCourse(s, messages, chunks, t')
  {
    hide Track, Flatten, Begun, ChunkSize;
    TrackCollect(InFlight(chunks, t), s.configs, s.mapper);
    assert t'.got.Keys == t.got.Keys + {t.done[0].id};
  }

  lemma CourseMoves(s: Setting, messages: seq<Msg>, chunks: seq<seq<Msg>>, t: Traffic, t': Traffic)
    returns (chunks': seq<seq<Msg>>)
    requires OnCourse(s, messages, chunks, t) && Moves(s, messages, t, t')
    ensures OnCourse(s, messages, chunks', t')
  {
    hide OnCourse, Sends, Takes, HandsOver, Collects;
    chunks' := chunks;
    if Sends(s, messages, t, t') {
      chunks' := CourseSends(s, messages, chunks, t, t');
    } else if Takes(s, t, t') {
      CourseTakes(s, messages, chunks, t, t');
    } else if Collects(messages, t, t') {
      CourseCollects(s, messages, chunks, t, t');
    } else {
      var k, ps :| HandsOver(s, t, t', k, ps);
      CourseHandsOver(s, messages, chunks, t, t', k, ps);
    }
  }

  lemma {:induction false} CourseOfPath(s: Setting, messages: seq<Msg>, ts: seq<Traffic>)
    returns (chunks: seq<seq<Msg>>)
    requires s.workers > 0 && Path(s, messages, ts) && Begins(ts[0]) && NothingLeft(ts[0])
    ensures OnCourse(s, messages, chunks, Last(ts))
  {
    hide OnCourse, Moves;
    var n := |ts| - 1;
    if n == 0 {
      CourseBegins(s, messages, ts[0]);
      chunks := [];
    } else {
      var before := ts[..n];
      assert forall k :: 0 <= k < |before| ==> before[k] == ts[k];
      chunks := CourseOfPath(s, messages, before);
      assert Moves(s, messages, ts[n - 1], ts[n - 1 + 1]);
      chunks := CourseMoves(s, messages, chunks, ts[n - 1], ts[n]);
    }
  }

  lemma {:induction false} AssembledFits(s: Setting, chunks: seq<seq<Msg>>, got: map<nat, seq<Processed>>, jobs: nat)
    requires jobs <= |chunks|
    requires forall k :: 0 <= k < |chunks| ==> k in got && AllFit(chunks[k], got[k], s.configs, s.mapper)
    ensures AllFit(Flatten(chunks[..jobs]), Assembled(got, jobs), s.configs, s.mapper)
  {
    if jobs > 0 {
      AssembledFits(s, chunks, got, jobs - 1);
      hide AllFit;
      assert chunks[..jobs - 1] + [chunks[jobs - 1]] == chunks[..jobs];
      FlattenAppend(chunks[..jobs - 1], chunks[jobs - 1]);
      AllFitAppend(Flatten(chunks[..jobs - 1]), Assembled(got, jobs - 1), chunks[jobs - 1], got[jobs - 1],
        s.configs, s.mapper);
    }
  }

  lemma CourseIsGood(s: Setting, messages: seq<Msg>, chunks: seq<seq<Msg>>, t: Traffic)
    requires OnCourse(s, messages, chunks, t)
    ensures Good(s, messages, t)
  {
    hide Track, Flatten, AllFit, ChunkSize, Begun;
    TrackCounts(InFlight(chunks, t), s.configs, s.mapper);
    BegunBound(|messages|, s.workers, t.i, t.jobs);
    if Finished(messages, t) {
      forall k | 0 <= k < |chunks| ensures k in t.got && AllFit(chunks[k], t.got[k], s.configs, s.mapper) {
        TrackComplete(InFlight(chunks, t), s.configs, s.mapper, k);
      }
      AssembledFits(s, chunks, t.got, |chunks|);
      assert chunks[..|chunks|] == chunks && messages[..|messages|] == messages;
    }
  }

  /** Every schedule from an idle pool is good. */
  lemma IdleIsGood(s: Setting, messages: seq<Msg>, ts: seq<Traffic>)
    requires s.workers > 0 && ts != [] && Path(s, messages, ts) && Begins(ts[0]) && NothingLeft(ts[0])
    ensures Good(s, messages, Last(ts))
  {
    hide OnCourse, Good, Path;
    var chunks := CourseOfPath(s, messages, ts);
    CourseIsGood(s, messages, chunks, Last(ts));
  }

  // ----- From a pool with leftovers -----

  ghost predicate Foreign(m: Msg, t: Traffic) {
    && (forall i :: 0 <= i < |t.queued| ==> m !in t.queued[i].messages)
    && (forall i :: 0 <= i < |t.busy| ==> m !in t.busy[i].messages)
    && (forall i, j :: 0 <= i < |t.done| && 0 <= j < |t.done[i].processed| ==> t.done[i].processed[j].msg != m)
  }

  function Above(ms: seq<Msg>): (n: nat)
    ensures forall i :: 0 <= i < |ms| ==> ms[i].delivery < n
  {
    if ms == [] then 0
    else
      var n, d := Above(ms[..|ms| - 1]), ms[|ms| - 1].delivery + 1;
      if n > d then n else d
  }

  function AboveJobs(jobs: seq<Job>): (n: nat)
    ensures forall i, m :: 0 <= i < |jobs| && m in jobs[i].messages ==> m.delivery < n
  {
    if jobs == [] then 0
    else
      var n, d := AboveJobs(jobs[..|jobs| - 1]), Above(jobs[|jobs| - 1].messages);
      if n > d then n else d
  }

  ghost function AboveResults(rs: seq<JobResult>): (n: nat)
    ensures forall i, j :: 0 <= i < |rs| && 0 <= j < |rs[i].processed| ==> rs[i].processed[j].msg.delivery < n
  {
    if rs == [] then 0
    else
      var n, d := AboveResults(rs[..|rs| - 1]), Above(Msgs(rs[|rs| - 1].processed));
      if n > d then n else d
  }

  lemma SomeForeign(t: Traffic) returns (m: Msg)
    ensures Foreign(m, t)
  {
    m := Msg(AboveJobs(t.queued) + AboveJobs(t.busy) + AboveResults(t.done), None, "", []);
  }

  ghost function Unmapped(ms: seq<Msg>): (ps: seq<Processed>)
    ensures |ps| == |ms| && forall i :: 0 <= i < |ms| ==> ps[i] == Bad(ms[i])
  {
    seq(|ms|, i requires 0 <= i < |ms| => Bad(ms[i]))
  }

  /** The rest of a schedule, behind its first state. */
  lemma PathFrom(s: Setting, messages: seq<Msg>, t: Traffic, ts: seq<Traffic>)
    requires ts != [] && Path(s, messages, ts) && Moves(s, messages, t, ts[0])
    ensures Path(s, messages, [t] + ts) && Last([t] + ts) == Last(ts)
  {
    hide Moves;
    var all := [t] + ts;
    forall k | 0 <= k < |all| - 1 ensures Moves(s, messages, all[k], all[k + 1]) {
      assert all[k + 1] == ts[k] && (k > 0 ==> all[k] == ts[k - 1]);
    }
  }

  /** With one message that nobody has seen, a leftover result is collected in its place, or
    * full channels never let its job in. */
  lemma {:induction false} LeftoverSpoils(s: Setting, m: Msg, t: Traffic) returns (ts: seq<Traffic>)
    requires s.workers > 0 && Begins(t) && !NothingLeft(t) && Foreign(m, t)
    ensures ts != [] && Path(s, [m], ts) && ts[0] == t && !Good(s, [m], Last(ts))
    decreases 2 * |t.queued| + |t.busy|
  {
    hide Moves, Path, Good;
    if t.done != [] && |t.queued| < s.workers {
      ts := CollectedInstead(s, m, t);
    } else if t.queued != [] && |t.busy| < s.workers {
      var t' := t.(queued := t.queued[1..], busy := t.busy + [t.queued[0]]);
      TakesMoves(s, m, t, t');
      ts := LeftoverSpoils(s, m, t');
      PathFrom(s, [m], t, ts);
      ts := [t] + ts;
    } else if t.busy != [] && |t.done| < s.workers {
      var ps := Unmapped(t.busy[0].messages);
      var t' := t.(busy := t.busy[..0] + t.busy[1..], done := t.done + [JobResult(t.busy[0].id, ps)]);
      HandsOverMoves(s, m, t, t', ps);
      ts := LeftoverSpoils(s, m, t');
      PathFrom(s, [m], t, ts);
      ts := [t] + ts;
    } else {
      ts := [t];
      FullIsStuck(s, m, t);
    }
  }

  lemma TakesMoves(s: Setting, m: Msg, t: Traffic, t': Traffic)
    requires Takes(s, t, t') && Foreign(m, t)
    ensures Moves(s, [m], t, t') && Foreign(m, t')
  {
  }

  lemma HandsOverMoves(s: Setting, m: Msg, t: Traffic, t': Traffic, ps: seq<Processed>)
    requires t.busy != [] && |t.done| < s.workers && ps == Unmapped(t.busy[0].messages) && Foreign(m, t)
    requires t' == t.(busy := t.busy[..0] + t.busy[1..], done := t.done + [JobResult(t.busy[0].id, ps)])
    ensures Moves(s, [m], t, t') && Foreign(m, t')
  {
    assert HandsOver(s, t, t', 0, ps);
    assert forall i :: 0 <= i < |t'.busy| ==> t'.busy[i] == t.busy[i + 1];
    assert forall j :: 0 <= j < |ps| ==> ps[j].msg == t.busy[0].messages[j];
    assert forall i :: 0 <= i < |t.done| ==> t'.done[i] == t.done[i];
  }

  lemma FullIsStuck(s: Setting, m: Msg, t: Traffic)
    requires s.workers > 0 && Begins(t) && !NothingLeft(t)
    requires !(t.done != [] && |t.queued| < s.workers) && !(t.queued != [] && |t.busy| < s.workers)
    requires !(t.busy != [] && |t.done| < s.workers)
    ensures Path(s, [m], [t]) && !Good(s, [m], t)
  {
  }

  lemma CollectedInstead(s: Setting, m: Msg, t: Traffic) returns (ts: seq<Traffic>)
    requires s.workers > 0 && Begins(t) && Foreign(m, t) && t.done != [] && |t.queued| < s.workers
    ensures Path(s, [m], ts) && ts[0] == t && !Good(s, [m], Last(ts))
    ensures Finished([m], Last(ts)) && Last(ts).queued == t.queued + [Job(0, [m])]
    ensures Assembled(Last(ts).got, Last(ts).jobs) == if t.done[0].id == 0 then t.done[0].processed else []
  {
    var r := t.done[0];
    var sent := t.(i := 1, jobs := 1, queued := t.queued + [Job(0, [m])]);
    var end := sent.(got := map[r.id := r.processed], done := t.done[1..], collected := 1);
    OneChunk(s, m, t, sent);
    assert Collects([m], sent, end) by {
      assert sent.got[r.id := r.processed] == map[r.id := r.processed];
    }
    ts := [t, sent, end];
    assert Assembled(end.got, 0) == [];
    assert Assembled(end.got, 1) == if r.id == 0 then r.processed else [];
    var ps := Assembled(end.got, 1);
    assert |ps| == 1 ==> !Fits([m][0], ps[0], s.configs, s.mapper);
  }

  lemma OneChunk(s: Setting, m: Msg, t: Traffic, sent: Traffic)
    requires s.workers > 0 && Begins(t) && |t.queued| < s.workers
    requires sent == t.(i := 1, jobs := 1, queued := t.queued + [Job(0, [m])])
    ensures Sends(s, [m], t, sent)
  {
    assert ChunkEnd(s, 1, 0) == 1;
    assert [m][0..1] == [m];
  }

  ghost predicate GoodRun(s: Setting, start: Traffic, messages: seq<Msg>, ts: seq<Traffic>) {
    ts != [] && Path(s, messages, ts) && ts[0] == start ==> Good(s, messages, Last(ts))
  }

  /** Over all messages and all schedules a dispatch never blocks for good and returns the
    * verdicts on its messages exactly when it finds nothing left in the pool. */
  lemma VerdictsFitIff(s: Setting, start: Traffic)
    requires s.workers > 0 && Begins(start)
    ensures (forall messages, ts :: GoodRun(s, start, messages, ts)) <==> NothingLeft(start)
  {
    hide Path, Good, NothingLeft, Foreign;
    if NothingLeft(start) {
      forall messages, ts ensures GoodRun(s, start, messages, ts) {
        if ts != [] && Path(s, messages, ts) && ts[0] == start {
          IdleIsGood(s, messages, ts);
        }
      }
    } else {
      var m := SomeForeign(start);
      var ts := LeftoverSpoils(s, m, start);
      assert !GoodRun(s, start, [m], ts);
    }
  }

  /** The first dispatch of a single worker gives up while the worker still maps `a`; the next
    * one, for `b`, collects the verdict on `a` as that of its job 0 and is finished, with
    * the job of `b` left in the channel. */
  lemma StaleVerdictIsTaken(s: Setting, a: Msg, b: Msg, p: Processed)
    returns (first: seq<Traffic>, second: seq<Traffic>)
    requires s.workers == 1 && a != b && Fits(a, p, s.configs, s.mapper)
    ensures Path(s, [a], first) && Begins(first[0]) && NothingLeft(first[0]) && !Finished([a], Last(first))
    ensures Path(s, [b], second) && Begins(second[0])
    ensures second[0].queued == Last(first).queued && second[0].busy == Last(first).busy &&
      second[0].done == Last(first).done
    ensures Finished([b], Last(second)) && Assembled(Last(second).got, Last(second).jobs) == [p] && p.msg == a
    ensures Last(second).queued == [Job(0, [b])]
    ensures forall refused :: b !in Assemble([p], refused).failed && b !in Msgs(Assemble([p], refused).kept)
  {
    hide Moves, Path, Finished, Assembled, Assemble, NothingLeft, Begins, Fits;
    first := MappedTooLate(s, a, p);
    var again := Traffic(0, 0, [], [], [JobResult(0, [p])], map[], 0);
    StaleStart(s, b, p, again);
    second := CollectedInstead(s, b, again);
    forall refused ensures b !in Assemble([p], refused).failed && b !in Msgs(Assemble([p], refused).kept) {
      OnlyItsOwn(p, refused, b);
    }
  }

  /** A single worker has mapped the only message when the dispatcher gives up. */
  lemma MappedTooLate(s: Setting, a: Msg, p: Processed) returns (ts: seq<Traffic>)
    requires s.workers == 1 && Fits(a, p, s.configs, s.mapper)
    ensures ts != [] && Path(s, [a], ts) && Begins(ts[0]) && NothingLeft(ts[0]) && !Finished([a], Last(ts))
    ensures Last(ts).queued == [] && Last(ts).busy == [] && Last(ts).done == [JobResult(0, [p])] && p.msg == a
  {
    var start := Traffic(0, 0, [], [], [], map[], 0);
    var sent := start.(i := 1, jobs := 1, queued := [Job(0, [a])]);
    var taken := sent.(queued := [], busy := [Job(0, [a])]);
    var mapped := taken.(busy := [], done := [JobResult(0, [p])]);
    OneChunk(s, a, start, sent);
    assert Takes(s, sent, taken);
    assert HandsOver(s, taken, mapped, 0, [p]);
    ts := [start, sent, taken, mapped];
  }

  lemma StaleStart(s: Setting, b: Msg, p: Processed, t: Traffic)
    requires s.workers == 1 && b != p.msg && t == Traffic(0, 0, [], [], [JobResult(0, [p])], map[], 0)
    ensures Begins(t) && Foreign(b, t) && t.done != [] && |t.queued| < s.workers
  {
  }

  lemma OnlyItsOwn(p: Processed, refused: set<nat>, b: Msg)
    requires p.msg != b
    ensures b !in Assemble([p], refused).failed && b !in Msgs(Assemble([p], refused).kept)
  {
    assert Assemble([p][..0], refused) == Assembly([], [], []);
  }

  class Pool {
    const workers: nat
    const configs: map<string, Config>
    const mapper: Mapper
    const o: Outside
    var jobChan: seq<Job>
    var busy: seq<Job>
    var resultChan: seq<JobResult>
    /** Some dispatch returned before all its results were collected. */
    ghost var gaveUp: bool

    constructor (workers: nat, configs: map<string, Config>, mapper: Mapper, o: Outside)
      requires workers > 0
      ensures this.workers == workers && this.configs == configs && this.mapper == mapper && this.o == o
      ensures Valid() && Idle() && !gaveUp
    {
      this.workers, this.configs, this.mapper, this.o := workers, configs, mapper, o;
      jobChan, busy, resultChan, gaveUp := [], [], [], false;
    }

    ghost predicate Valid()
      reads this, o`disturbed
    {
      && workers > 0
      && |jobChan| <= workers && |busy| <= workers && |resultChan| <= workers
      && (forall i :: 0 <= i < |resultChan| ==> OwnVerdicts(resultChan[i].processed, configs, mapper))
      && (!o.disturbed ==> forall i :: 0 <= i < |resultChan| ==> Exact(resultChan[i].processed, configs, mapper))
    }

    /** Results in hand: verdicts on their own messages, and exact if nothing failed so far. */
    ghost predicate InHand(got: map<nat, seq<Processed>>)
      reads o`disturbed
    {
      && (forall k :: k in got ==> OwnVerdicts(got[k], configs, mapper))
      && (!o.disturbed ==> forall k :: k in got ==> Exact(got[k], configs, mapper))
    }

    /** Nothing of an abandoned dispatch is left in the channels. */
    ghost predicate Idle()
      reads this
    {
      jobChan == [] && busy == [] && resultChan == []
    }

    /** Asks the configuration store, which may be out of order for a while. */
    method GetSinkConfig(version: string) returns (r: Option<Config>)
      modifies o`disturbed, o`down
      ensures old(o.down) <= o.down && (r.None? && version in configs ==> version in o.down)
      ensures r.Some? ==> version in configs && r == Some(configs[version])
      ensures o.disturbed == (old(o.disturbed) || (r.None? && version in configs))
    {
      var down := *;
      if down && version in configs {
        o.RefuseConfig(version);
      }
      r := if down || version !in configs then None else Some(configs[version]);
    }

    /** One job: the configuration of each schema version is asked for once and remembered. */
    method Work(job: Job) returns (processed: seq<Processed>)
      modifies o`disturbed, o`down
      ensures old(o.disturbed) ==> o.disturbed
      ensures AllFit(job.messages, processed, configs, mapper)
      ensures ExactUnless(o.down, processed, configs, mapper)
      ensures !o.disturbed ==> Exact(processed, configs, mapper)
    {
      processed := [];
      var cache: map<string, Config> := map[];
      for i := 0 to |job.messages|
        invariant old(o.disturbed) ==> o.disturbed
        invariant AllFit(job.messages[..i], processed, configs, mapper) && old(o.down) <= o.down
        invariant ExactUnless(o.down, processed, configs, mapper)
        invariant !o.disturbed ==> Exact(processed, configs, mapper)
        invariant forall v :: v in cache ==> v in configs && cache[v] == configs[v]
      {
        var m := job.messages[i];
        if m.sequence.None? || m.version == "" {
          processed := processed + [Bad(m)];
          continue;
        }
        if m.version !in cache {
          var config := GetSinkConfig(m.version);
          if config.None? {
            processed := processed + [Bad(m)];
            continue;
          }
          cache := cache[m.version := config.value];
        }
        var row := mapper(m.data, m.version, cache[m.version]);
        processed := processed + [if row.Some? then Ready(m, m.sequence.value, row.value) else Bad(m)];
      }
      assert job.messages[..|job.messages|] == job.messages;
    }

    function Parameters(): Setting {
      Setting(workers, configs, mapper)
    }

    /** What the channels and the dispatcher's variables amount to. */
    ghost function Now(i: nat, jobs: nat, got: map<nat, seq<Processed>>, collected: nat): Traffic
      reads this`jobChan, this`busy, this`resultChan
    {
      Traffic(i, jobs, jobChan, busy, resultChan, got, collected)
    }

    /** A free worker takes the next job. */
    method Take()
      requires Valid() && jobChan != [] && |busy| < workers
      modifies this`jobChan, this`busy
      ensures Valid() && jobChan == old(jobChan)[1..] && busy == old(busy) + [old(jobChan)[0]]
    {
      jobChan, busy := jobChan[1..], busy + [jobChan[0]];
    }

    /** Some busy worker hands over its result. */
    method HandOver(ghost before: Traffic)
      requires Valid() && busy != [] && |resultChan| < workers
      requires before.queued == jobChan && before.busy == busy && before.done == resultChan
      modifies this`busy, this`resultChan, o`disturbed, o`down
      ensures old(o.disturbed) ==> o.disturbed
      ensures Valid() && |busy| == |old(busy)| - 1 && |resultChan| == |old(resultChan)| + 1
      ensures exists k, ps :: HandsOver(Parameters(), before, before.(busy := busy, done := resultChan), k, ps)
    {
      hide AllFit, OwnVerdicts, Exact;
      var k :| 0 <= k < |busy|;
      var processed := Work(busy[k]);
      FitIsOwn(busy[k].messages, processed, configs, mapper);
      resultChan := resultChan + [JobResult(busy[k].id, processed)];
      busy := busy[..k] + busy[k + 1..];
      assert HandsOver(Parameters(), before, before.(busy := busy, done := resultChan), k, processed);
    }

    method Collect(got: map<nat, seq<Processed>>) returns (got': map<nat, seq<Processed>>)
      requires Valid() && resultChan != [] && InHand(got)
      modifies this`resultChan
      ensures Valid() && resultChan == old(resultChan)[1..] && InHand(got')
      ensures got' == got[old(resultChan)[0].id := old(resultChan)[0].processed]
    {
      hide OwnVerdicts, Exact;
      var result := resultChan[0];
      got', resultChan := got[result.id := result.processed], resultChan[1..];
    }

    /** Any interleaving of the dispatcher and the workers, as a path of the transition system.
      * `gaveUp` records that the context was done or the wait for results timed out; the
      * exchange also ends when nothing can move any more. */
    method Exchange(messages: seq<Msg>)
      returns (done: bool, jobs: nat, results: map<nat, seq<Processed>>, ghost ts: seq<Traffic>)
      requires Valid()
      modifies this`jobChan, this`busy, this`resultChan, this`gaveUp, o`disturbed, o`down
      ensures Valid() && InHand(results)
      ensures ts != [] && Path(Parameters(), messages, ts) && ts[0] == old(Now(0, 0, map[], 0))
      ensures var t := Last(ts); t == Now(t.i, jobs, results, t.collected)
      ensures done <==> Finished(messages, Last(ts))
      ensures old(o.disturbed) ==> o.disturbed
      ensures old(gaveUp) ==> gaveUp
      ensures gaveUp && !old(gaveUp) ==> !done && o.disturbed
      ensures !done ==> (gaveUp && o.disturbed) || Stuck(Parameters(), messages, Last(ts))
    {
      hide AllFit, OwnVerdicts, Exact, Path, Moves;
      done, jobs, results := false, 0, map[];
      var i, collected := 0, 0;
      var cancelled := *;
      ts := [Now(0, 0, map[], 0)];
      JustBegun(Parameters(), messages, ts[0]);
      while
        invariant Valid() && InHand(results) && (old(o.disturbed) ==> o.disturbed) && gaveUp == old(gaveUp)
        invariant i <= |messages| && collected <= jobs
        invariant ts != [] && Path(Parameters(), messages, ts) && ts[0] == old(Now(0, 0, map[], 0)) &&
          Last(ts) == Now(i, jobs, results, collected)
        decreases 4 * (|messages| - i) + 3 * |jobChan| + 2 * |busy| + |resultChan|
      {
        case i < |messages| && |jobChan| < workers =>
          var end := ChunkEnd(Parameters(), |messages|, i);
          jobChan := jobChan + [Job(jobs, messages[i..end])];
          i, jobs, cancelled := end, jobs + 1, *;
          SendMoves(Parameters(), messages, Last(ts), Now(i, jobs, results, collected));
          PathGrows(Parameters(), messages, ts, Now(i, jobs, results, collected));
          ts := ts + [Now(i, jobs, results, collected)];
        case jobChan != [] && |busy| < workers =>
          Take();
          cancelled := *;
          TakeMoves(Parameters(), messages, Last(ts), Now(i, jobs, results, collected));
          PathGrows(Parameters(), messages, ts, Now(i, jobs, results, collected));
          ts := ts + [Now(i, jobs, results, collected)];
        case busy != [] && |resultChan| < workers =>
          HandOver(Last(ts));
          cancelled := *;
          HandOverMoves(Parameters(), messages, Last(ts), Now(i, jobs, results, collected));
          PathGrows(Parameters(), messages, ts, Now(i, jobs, results, collected));
          ts := ts + [Now(i, jobs, results, collected)];
        case i == |messages| && collected < jobs && resultChan != [] =>
          results := Collect(results);
          collected, cancelled := collected + 1, *;
          CollectMoves(Parameters(), messages, Last(ts), Now(i, jobs, results, collected));
          PathGrows(Parameters(), messages, ts, Now(i, jobs, results, collected));
          ts := ts + [Now(i, jobs, results, collected)];
        case cancelled && (i < |messages| || collected < jobs) =>
          gaveUp := true;
          o.Disturb();
          return;
        case i == |messages| && collected == jobs =>
          break;
      }
      done := i == |messages| && collected == jobs;
    }

    /** From an idle pool the verdicts come back in the order of the messages, whichever
      * worker was faster, and the pool is idle again; the wait ends unless the context or
      * the clock ends it. */
    method Dispatch(messages: seq<Msg>) returns (r: Option<seq<Processed>>)
      requires Valid()
      modifies this`jobChan, this`busy, this`resultChan, this`gaveUp, o`disturbed, o`down
      ensures Valid()
      ensures old(o.disturbed) ==> o.disturbed
      ensures old(gaveUp) ==> gaveUp
      ensures gaveUp && !old(gaveUp) ==> r.None? && o.disturbed
      ensures r.Some? ==> OwnVerdicts(r.value, configs, mapper) && (!o.disturbed ==> Exact(r.value, configs, mapper))
      ensures old(Idle()) && r.None? ==> gaveUp && o.disturbed
      ensures old(Idle()) && r.Some? ==> Idle() && AllFit(messages, r.value, configs, mapper)
    {
      hide AllFit, OwnVerdicts, Exact, Path;
      ghost var idle := Idle();
      var done, jobs, results, ts := Exchange(messages);
      if idle {
        IdleIsGood(Parameters(), messages, ts);
      }
      if !done {
        return None;
      }
      var ps := [];
      NothingYet(configs, mapper);
      for k := 0 to jobs
        invariant Valid() && (idle ==> Idle()) && InHand(results) && OwnVerdicts(ps, configs, mapper)
        invariant (old(o.disturbed) ==> o.disturbed) && gaveUp == old(gaveUp) &&
          (!o.disturbed ==> Exact(ps, configs, mapper))
        invariant ps == Assembled(results, k)
      {
        var own := if k in results then results[k] else [];
        OwnAppend(ps, own, configs, mapper);
        ps := ps + own;
      }
      r := Some(ps);
    }
  }

  lemma JustBegun(s: Setting, messages: seq<Msg>, t: Traffic)
    ensures Path(s, messages, [t]) && Last([t]) == t
  {
  }

  lemma SendMoves(s: Setting, messages: seq<Msg>, t: Traffic, t': Traffic)
    requires Sends(s, messages, t, t')
    ensures Moves(s, messages, t, t')
  {
  }

  lemma TakeMoves(s: Setting, messages: seq<Msg>, t: Traffic, t': Traffic)
    requires Takes(s, t, t')
    ensures Moves(s, messages, t, t')
  {
  }

  lemma HandOverMoves(s: Setting, messages: seq<Msg>, t: Traffic, t': Traffic)
    requires exists k, ps :: HandsOver(s, t, t', k, ps)
    ensures Moves(s, messages, t, t')
  {
  }

  lemma CollectMoves(s: Setting, messages: seq<Msg>, t: Traffic, t': Traffic)
    requires Collects(messages, t, t')
    ensures Moves(s, messages, t, t')
  {
  }
}
