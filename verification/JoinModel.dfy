/** Values of the temporal join: events, bucket entries, the space-separated index, and the
  * meaning of a run in which no call fails and nothing expires. */
module JoinModel {
  import opened Texts
  import opened Wrappers

  /** A message of either input stream; `seqno` is its place in its stream, `key` its join key. */
  datatype Event = Event(seqno: nat, key: string, version: string, data: string)

  datatype Joined = Joined(left: Event, right: Event)

  /** A bucket value: the list of UUIDs under a join key, or a buffered message. */
  datatype Value = Text(text: string) | Held(event: Event)

  datatype Entry = Entry(value: Value, written: nat)

  /** Zero means the bucket keeps entries for ever. */
  predicate Expired(written: nat, ttl: nat, now: nat) {
    ttl > 0 && written + ttl <= now
  }

  /** The text storeToLeftStreamBuffer writes back. */
  function Appended(keys: string, uuid: string): string {
    if keys != "" then keys + " " + uuid else uuid
  }

  // ----- Meaning of a run without faults -----

  datatype Input = L(event: Event) | R(event: Event)

  /** The latest right event and the waiting left events of each key. */
  datatype Table = Table(latest: map<string, Event>, waiting: map<string, seq<Event>>)

  function Paired(lefts: seq<Event>, right: Event): (out: seq<Joined>)
    ensures |out| == |lefts|
    ensures forall i :: 0 <= i < |out| ==> out[i] == Joined(lefts[i], right)
  {
    seq(|lefts|, i requires 0 <= i < |lefts| => Joined(lefts[i], right))
  }

  function WaitingOf(t: Table, key: string): seq<Event> {
    if key in t.waiting then t.waiting[key] else []
  }

  /** What one event does to the table, and what it puts out. */
  function Step(t: Table, input: Input): (Table, seq<Joined>) {
    var e, key := input.event, input.event.key;
    match input
    case L(_) =>
      if key in t.latest then (t, [Joined(e, t.latest[key])])
      else (t.(waiting := t.waiting[key := WaitingOf(t, key) + [e]]), [])
    case R(_) =>
      (Table(t.latest[key := e], t.waiting - {key}), Paired(WaitingOf(t, key), e))
  }

  function Run(trace: seq<Input>): (Table, seq<Joined>) {
    if trace == [] then (Table(map[], map[]), []) else
    var (t, out) := Run(trace[..|trace| - 1]);
    var (t', more) := Step(t, trace[|trace| - 1]);
    (t', out + more)
  }

  // ----- What a user of the join expects, without tables -----

  predicate IsRight(input: Input, key: string) {
    input.R? && input.event.key == key
  }

  /** The latest right event of a key. */
  function LastRight(trace: seq<Input>, key: string): Option<Event> {
    if trace == [] then None else
    var last := trace[|trace| - 1];
    if IsRight(last, key) then Some(last.event) else LastRight(trace[..|trace| - 1], key)
  }

  /** The first right event of a key at position i or later. */
  function FirstRight(trace: seq<Input>, key: string, i: nat): Option<Event>
    requires i <= |trace|
    decreases |trace| - i
  {
    if i == |trace| then None
    else if IsRight(trace[i], key) then Some(trace[i].event) else FirstRight(trace, key, i + 1)
  }

  /** The left events of a key in arrival order. */
  function Lefts(trace: seq<Input>, key: string): seq<Event> {
    if trace == [] then [] else
    var last := trace[|trace| - 1];
    Lefts(trace[..|trace| - 1], key) + (if last.L? && last.event.key == key then [last.event] else [])
  }

  /** What the last event of a trace should put out: a left event its join with the latest
    * right event, the first right event of a key its join with every earlier left event of
    * that key, in arrival order. */
  function OutAtEnd(trace: seq<Input>): seq<Joined>
    requires trace != []
  {
    var before, last := trace[..|trace| - 1], trace[|trace| - 1];
    var e := last.event;
    match (last, LastRight(before, e.key))
    case (L(_), Some(r)) => [Joined(e, r)]
    case (R(_), None) => Paired(Lefts(before, e.key), e)
    case _ => []
  }

  function Expected(trace: seq<Input>): seq<Joined> {
    if trace == [] then [] else Expected(trace[..|trace| - 1]) + OutAtEnd(trace)
  }

  /** The right event the left event at position i is to be joined with. */
  function Partner(trace: seq<Input>, i: nat): Option<Event>
    requires i < |trace|
  {
    var key := trace[i].event.key;
    match LastRight(trace[..i], key)
    case Some(r) => Some(r)
    case None => FirstRight(trace, key, i + 1)
  }

  function Due(trace: seq<Input>, i: nat): multiset<Joined>
    requires i < |trace|
  {
    if trace[i].L? && Partner(trace, i).Some? then multiset{Joined(trace[i].event, Partner(trace, i).value)}
    else multiset{}
  }

  /** One join for each of the first n events that is a left event with a partner. */
  function Owed(trace: seq<Input>, n: nat): multiset<Joined>
    requires n <= |trace|
  {
    if n == 0 then multiset{} else Owed(trace, n - 1) + Due(trace, n - 1)
  }

  lemma {:induction false} TableMeans(trace: seq<Input>, key: string)
    ensures var t := Run(trace).0;
            match LastRight(trace, key)
            case Some(r) => key in t.latest && t.latest[key] == r && key !in t.waiting
            case None => key !in t.latest && WaitingOf(t, key) == Lefts(trace, key)
  {
    if trace != [] {
      TableMeans(trace[..|trace| - 1], key);
      TableMeans(trace[..|trace| - 1], trace[|trace| - 1].event.key);
    }
  }

  /** The table-driven join puts out what the trace alone calls for, in that order. */
  lemma {:induction false} RunIsExpected(trace: seq<Input>)
    ensures Run(trace).1 == Expected(trace)
  {
    if trace != [] {
      RunIsExpected(trace[..|trace| - 1]);
      TableMeans(trace[..|trace| - 1], trace[|trace| - 1].event.key);
    }
  }

  lemma {:induction false} NoRightYet(trace: seq<Input>, key: string, i: nat)
    requires i <= |trace|
    ensures LastRight(trace, key).None? <==> LastRight(trace[..i], key).None? && FirstRight(trace, key, i).None?
    decreases |trace| - i
  {
    if i < |trace| {
      NoRightYet(trace, key, i + 1);
      assert trace[..i + 1][..i] == trace[..i];
    } else {
      assert trace[..i] == trace;
    }
  }

  lemma {:induction false} FirstRightExtended(before: seq<Input>, input: Input, key: string, i: nat)
    requires i <= |before|
    ensures FirstRight(before + [input], key, i) ==
            match FirstRight(before, key, i)
            case Some(r) => Some(r)
            case None => if IsRight(input, key) then Some(input.event) else None
    decreases |before| - i
  {
    if i < |before| {
      FirstRightExtended(before, input, key, i + 1);
    }
  }

  /** The joins that a newly arrived event makes due among the first n events before it. */
  function Released(before: seq<Input>, input: Input, n: nat): multiset<Joined>
    requires n <= |before|
  {
    if input.R? &&
      LastRight(before, input.event.key).None? then multiset(Paired(Lefts(before[..n], input.event.key), input.event))
    else multiset{}
  }

  predicate Releases(before: seq<Input>, input: Input, i: nat)
    requires i < |before|
  {
    IsRight(input, before[i].event.key) && LastRight(before, input.event.key).None? && before[i].L?
  }

  lemma ReleasedStep(before: seq<Input>, input: Input, i: nat)
    requires i < |before|
    ensures Released(before, input, i + 1) == Released(before, input, i) + NewlyDue(before, input, i)
  {
    var lefts := Lefts(before[..i], input.event.key);
    assert before[..i + 1][..i] == before[..i];
    assert Paired(lefts + [before[i].event], input.event) ==
      Paired(lefts, input.event) + [Joined(before[i].event, input.event)];
    assert lefts + [] == lefts;
  }

  lemma PartnerExtended(before: seq<Input>, input: Input, i: nat)
    requires i < |before| && before[i].L?
    ensures Partner(before + [input], i) == if Releases(before, input, i) then Some(input.event) else Partner(before, i)
    ensures Releases(before, input, i) ==> Partner(before, i).None?
  {
    var key := before[i].event.key;
    assert (before + [input])[..i] == before[..i];
    FirstRightExtended(before, input, key, i + 1);
    NoRightYet(before, key, i);
  }

  function NewlyDue(before: seq<Input>, input: Input, i: nat): multiset<Joined>
    requires i < |before|
  {
    if Releases(before, input, i) then multiset{Joined(before[i].event, input.event)} else multiset{}
  }

  lemma DueExtended(before: seq<Input>, input: Input, i: nat)
    requires i < |before|
    ensures Due(before + [input], i) == Due(before, i) + NewlyDue(before, input, i)
  {
    if before[i].L? {
      PartnerExtended(before, input, i);
    }
  }

  lemma Regroup(a: multiset<Joined>, r: multiset<Joined>, d: multiset<Joined>, x: multiset<Joined>)
    ensures (a + r) + (d + x) == (a + d) + (r + x)
  {
  }

  lemma {:induction false} OwedExtended(before: seq<Input>, input: Input, n: nat)
    requires n <= |before|
    ensures Owed(before + [input], n) == Owed(before, n) + Released(before, input, n)
  {
    if n == 0 {
      assert Paired(Lefts(before[..0], input.event.key), input.event) == [];
    } else {
      hide *;
      var a, r := Owed(before, n - 1), Released(before, input, n - 1);
      var d, x := Due(before, n - 1), NewlyDue(before, input, n - 1);
      OwedExtended(before, input, n - 1);
      DueExtended(before, input, n - 1);
      ReleasedStep(before, input, n - 1);
      Regroup(a, r, d, x);
      OwedStep(before, n);
      OwedStep(before + [input], n);
    }
  }

  lemma OwedStep(trace: seq<Input>, n: nat)
    requires 0 < n <= |trace|
    ensures Owed(trace, n) == Owed(trace, n - 1) + Due(trace, n - 1)
  {
  }

  /** Every left event is joined exactly once: with the latest right event of its key handled
    * before it, else with the first one handled after it, else not at all. */
  lemma {:induction false} EachLeftJoinsOnce(trace: seq<Input>)
    ensures multiset(Run(trace).1) == Owed(trace, |trace|)
  {
    if trace != [] {
      var before, last := trace[..|trace| - 1], trace[|trace| - 1];
      assert trace == before + [last];
      EachLeftJoinsOnce(before);
      OwedExtended(before, last, |before|);
      assert before[..|before|] == before;
      TableMeans(before, last.event.key);
    }
  }
}
