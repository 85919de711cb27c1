/** The temporal join over two expiring key-value buckets: no left event is lost whatever step
  * fails, and a run without faults is the table-driven join of JoinModel. */
module Join {
  import opened JoinModel
  import opened Texts
  import opened Wrappers

  datatype Lookup = Found(value: Value) | Missing | Failed

  /** A NATS key-value bucket. Before every call time may pass; every call may fail without
    * effect. `disturbed` records that some call failed or some entry outlived its TTL. */
  class KVStore {
    const ttl: nat
    var now: nat
    var entries: map<string, Entry>
    ghost var disturbed: bool
    /** How many calls failed; an entry that expires is no failure. */
    ghost var failures: nat

    constructor (ttl: nat)
      ensures this.ttl == ttl && entries == map[] && !disturbed && failures == 0
    {
      this.ttl, now, entries, disturbed, failures := ttl, 0, map[], false, 0;
    }

    predicate Alive(key: string)
      reads this`now, this`entries
    {
      key in entries && !Expired(entries[key].written, ttl, now)
    }

    ghost predicate AllAlive()
      reads this`now, this`entries
    {
      forall key :: key in entries ==> !Expired(entries[key].written, ttl, now)
    }

    /** Time passes; the answer says whether the call about to be made works. */
    method Attempt() returns (ok: bool)
      modifies this`now, this`disturbed, this`failures
      ensures old(now) <= now
      ensures !disturbed ==> !old(disturbed) && ok && AllAlive()
      ensures failures == old(failures) + (if ok then 0 else 1)
    {
      var elapsed: nat :| 0 <= elapsed;
      now, ok := now + elapsed, *;
      failures := failures + (if ok then 0 else 1);
      disturbed := disturbed || !ok || !AllAlive();
    }

    method Get(key: string) returns (r: Lookup)
      modifies this`now, this`disturbed, this`failures
      ensures old(now) <= now && (!disturbed ==> !old(disturbed) && AllAlive() && !r.Failed?)
      ensures r.Found? ==> Alive(key) && entries[key].value == r.value
      ensures r.Missing? ==> !Alive(key)
      ensures failures == old(failures) + (if r.Failed? then 1 else 0)
    {
      var ok := Attempt();
      if !ok {
        return Failed;
      }
      return if Alive(key) then Found(entries[key].value) else Missing;
    }

    method Put(key: string, value: Value) returns (ok: bool)
      modifies this`now, this`entries, this`disturbed, this`failures
      ensures old(now) <= now && (!disturbed ==> !old(disturbed) && ok)
      ensures failures == old(failures) + (if ok then 0 else 1)
      ensures entries == if ok then old(entries)[key := Entry(value, now)] else old(entries)
    {
      ok := Attempt();
      if ok {
        entries := entries[key := Entry(value, now)];
      }
    }

    method Delete(key: string) returns (ok: bool)
      modifies this`now, this`entries, this`disturbed, this`failures
      ensures old(now) <= now && (!disturbed ==> !old(disturbed) && ok)
      ensures failures == old(failures) + (if ok then 0 else 1)
      ensures entries == if ok then old(entries) - {key} else old(entries)
    {
      ok := Attempt();
      if ok {
        entries := entries - {key};
      }
    }
  }

  /** The results stream: a publish succeeds, is throttled, or fails; the run's context is
    * cancelled after some number of waits. */
  class Results {
    var ticks: nat
    var cancelTick: nat
    ghost var out: seq<Joined>
    ghost var disturbed: bool
    /** How often a publish was refused for good or the context was found done. */
    ghost var failures: nat

    constructor (cancelTick: nat)
      ensures out == [] && !disturbed && failures == 0
    {
      ticks, this.cancelTick, out, disturbed, failures := 0, cancelTick, [], false, 0;
    }

    method ContextIsDone() returns (done: bool)
      modifies this`ticks, this`disturbed, this`failures
      ensures done == (cancelTick <= old(ticks)) && ticks == old(ticks) + 1
      ensures disturbed == (old(disturbed) || done) && failures == old(failures) + (if done then 1 else 0)
    {
      done := cancelTick <= ticks;
      ticks, disturbed, failures := ticks + 1, disturbed || done, failures + (if done then 1 else 0);
    }

    /** A full stream refuses for the time being, which is no disturbance. */
    method Publish(msg: Joined) returns (ok: bool, backpressure: bool)
      modifies this`out, this`disturbed, this`failures
      ensures out == if ok then old(out) + [msg] else old(out)
      ensures disturbed == (old(disturbed) || (!ok && !backpressure))
      ensures failures == old(failures) + (if !ok && !backpressure then 1 else 0)
    {
      ok, backpressure := *, *;
      if ok {
        out := out + [msg];
      } else if !backpressure {
        disturbed, failures := true, failures + 1;
      }
    }
  }

  /** Issued by the generator now or later. */
  ghost predicate IsUuid(uuids: nat -> string, s: string) {
    s != "" && ' ' !in s && exists n: nat :: uuids(n) == s
  }

  /** The generator never repeats itself and its output survives in a list separated by spaces. */
  ghost predicate FreshSupply(uuids: nat -> string) {
    && (forall n: nat :: uuids(n) != "" && ' ' !in uuids(n))
    && (forall m, n :: 0 <= m < n ==> uuids(m) != uuids(n))
  }

  /** A buffered message whose UUID made it into the index, and when it was written. */
  datatype Filing = Filing(event: Event, at: nat)

  ghost predicate Published(e: Event, out: seq<Joined>) {
    exists i :: 0 <= i < |out| && out[i].left == e && out[i].right.key == e.key
  }

  ghost predicate Listed(left: map<string, Entry>, key: string, u: string) {
    key in left && left[key].value.Text? && u in Split(left[key].value.text, ' ')
  }

  /** The right handler can still find the message: its UUID is under its join key. */
  ghost predicate Reachable(left: map<string, Entry>, u: string, f: Filing) {
    && u in left && left[u] == Entry(Held(f.event), f.at)
    && Listed(left, f.event.key, u) && f.at <= left[f.event.key].written
  }

  /** No buffered left event is lost: it is published, past its TTL, or reachable. */
  ghost predicate NoLoss(left: map<string, Entry>, now: nat, ttl: nat, filed: map<string, Filing>, out: seq<Joined>) {
    forall u :: u in filed ==>
      Published(filed[u].event, out) || Expired(filed[u].at, ttl, now) || Reachable(left, u, filed[u])
  }

  /** The two levels of the bucket do not mix, and what an index lists was filed under it no
    * later than the index was written. */
  ghost predicate Layout(uuids: nat -> string, left: map<string, Entry>, now: nat, filed: map<string, Filing>) {
    && (forall k :: k in left ==> left[k].written <= now && (IsUuid(uuids, k) <==> left[k].value.Held?))
    && (forall u :: u in filed ==> IsUuid(uuids, u) && !IsUuid(uuids, filed[u].event.key))
    && (forall k, u :: Listed(left, k, u) && u != "" ==> u in filed && filed[u].event.key == k)
    && (forall k, u :: Listed(left, k, u) && u != "" && u in left ==>
          left[u] == Entry(Held(filed[u].event), filed[u].at) && filed[u].at <= left[k].written)
  }

  /** The UUIDs in use were generated already. */
  ghost predicate Generated(uuids: nat -> string, next: nat, left: map<string, Entry>, filed: map<string, Filing>) {
    forall u :: IsUuid(uuids, u) && (u in left || u in filed) ==> exists m :: 0 <= m < next && uuids(m) == u
  }

  /** A live buffered message under `key`. */
  ghost predicate Buffered(left: map<string, Entry>, now: nat, ttl: nat, key: string, u: string) {
    Listed(left, key, u) && u in left && u != "" && !Expired(left[u].written, ttl, now)
  }

  ghost predicate Consistent(uuids: nat -> string, left: map<string, Entry>, now: nat, ttl: nat,
                             filed: map<string, Filing>, out: seq<Joined>) {
    NoLoss(left, now, ttl, filed, out) && Layout(uuids, left, now, filed)
  }

  lemma ConsistentLayout(uuids: nat -> string, left: map<string, Entry>, now: nat, ttl: nat,
                         filed: map<string, Filing>, out: seq<Joined>)
    requires Consistent(uuids, left, now, ttl, filed, out)
    ensures Layout(uuids, left, now, filed)
  {
  }

  lemma LaterIsConsistent(uuids: nat -> string, left: map<string, Entry>, now: nat, now': nat, ttl: nat,
                          filed: map<string, Filing>, out: seq<Joined>, out': seq<Joined>)
    requires Consistent(uuids, left, now, ttl, filed, out) && now <= now' && out <= out'
    ensures Consistent(uuids, left, now', ttl, filed, out')
  {
    forall u | u in filed && Published(filed[u].event, out) ensures Published(filed[u].event, out') {
      var i :| 0 <= i < |out| && out[i].left == filed[u].event && out[i].right.key == filed[u].event.key;
      assert out'[i] == out[i];
    }
  }

  /** Storing a message under a fresh UUID disturbs nothing: no index lists it yet. */
  lemma StoreMessage(uuids: nat -> string, left: map<string, Entry>, now: nat, ttl: nat, filed: map<string, Filing>,
                     out: seq<Joined>, u: string, e: Event)
    requires Consistent(uuids, left, now, ttl, filed, out)
    requires IsUuid(uuids, u) && u !in left && u !in filed
    ensures Consistent(uuids, left[u := Entry(Held(e), now)], now, ttl, filed, out)
  {
    var left' := left[u := Entry(Held(e), now)];
    forall k, v | Listed(left', k, v) && v != "" ensures Listed(left, k, v) && v != u {
      assert k != u;
      assert Listed(left, k, v);
    }
    forall v | v in filed && Reachable(left, v, filed[v]) ensures Reachable(left', v, filed[v]) {
      assert Listed(left', filed[v].event.key, v);
    }
  }

  /** `keys` is what reading the index of `key` gave, and may have expired since. */
  ghost predicate IndexRead(left: map<string, Entry>, now: nat, ttl: nat, key: string, keys: string) {
    || (key in left && left[key].value == Text(keys))
    || (keys == "" && (key in left ==> Expired(left[key].written, ttl, now)))
  }

  /** After rewriting the index it lists the new UUID and what `keys` listed. */
  lemma ListedAfterFiling(left: map<string, Entry>, key: string, keys: string, u: string, now: nat)
    requires ' ' !in u
    ensures var left' := left[key := Entry(Text(Appended(keys, u)), now)];
      && Listed(left', key, u)
      && (forall v :: v != "" ==> (Listed(left', key, v) <==> v == u || v in Split(keys, ' ')))
      && (forall k, v :: k != key ==> (Listed(left', k, v) <==> Listed(left, k, v)))
  {
    SplitWord(u, ' ');
    SplitAppend(keys, u, ' ');
  }

  /** Rewriting the index with the new UUID keeps every message it listed: an index that was
    * not found had expired, and then so had everything it listed. */
  lemma FileMessage(uuids: nat -> string, left: map<string, Entry>, now: nat, ttl: nat, filed: map<string, Filing>,
                    out: seq<Joined>,
                    keys: string, u: string, f: Filing)
    requires Consistent(uuids, left, now, ttl, filed, out)
    requires IsUuid(uuids, u) && u !in filed && u in left && left[u] == Entry(Held(f.event), f.at)
    requires !IsUuid(uuids, f.event.key) && IndexRead(left, now, ttl, f.event.key, keys) && f.at <= now
    ensures Consistent(uuids, left[f.event.key := Entry(Text(Appended(keys, u)), now)], now, ttl, filed[u := f], out)
  {
    var key := f.event.key;
    var left', filed' := left[key := Entry(Text(Appended(keys, u)), now)], filed[u := f];
    ListedAfterFiling(left, key, keys, u, now);
    NothingInNothing(keys);
    hide Appended, Split, IsUuid;
    forall k, v | Listed(left', k, v) && v != ""
      ensures v in filed' && filed'[v].event.key == k
      ensures v in left' ==> left'[v] == Entry(Held(filed'[v].event), filed'[v].at) && filed'[v].at <= left'[k].written
    {
      if k != key || v != u {
        assert Listed(left, k, v);
      }
    }
    forall v | v in filed'
      ensures Published(filed'[v].event, out) || Expired(filed'[v].at, ttl, now) || Reachable(left', v, filed'[v])
    {
      if v != u && Reachable(left, v, filed[v]) && !Expired(filed[v].at, ttl, now) {
        assert Listed(left', filed[v].event.key, v);
      }
    }
  }

  lemma NothingInNothing(keys: string)
    ensures keys == "" ==> forall v :: v in Split(keys, ' ') ==> v == ""
  {
  }

  /** A message may be deleted once it is published. */
  lemma DropMessage(uuids: nat -> string, left: map<string, Entry>, now: nat, ttl: nat, filed: map<string, Filing>,
                    out: seq<Joined>, u: string)
    requires Consistent(uuids, left, now, ttl, filed, out)
    requires IsUuid(uuids, u) && u in left && left[u].value.Held? && Published(left[u].value.event, out)
    ensures Consistent(uuids, left - {u}, now, ttl, filed, out)
  {
    var left' := left - {u};
    forall k, v | Listed(left', k, v) ensures Listed(left, k, v) {
    }
    forall v | v in filed && v != u && Reachable(left, v, filed[v]) ensures Reachable(left', v, filed[v]) {
      assert Listed(left', filed[v].event.key, v);
    }
  }

  /** An index may be deleted once nothing it lists is left. */
  lemma DropIndex(uuids: nat -> string, left: map<string, Entry>, now: nat, ttl: nat, filed: map<string, Filing>,
                  out: seq<Joined>, key: string)
    requires Consistent(uuids, left, now, ttl, filed, out) && !IsUuid(uuids, key)
    requires forall u :: !Buffered(left, now, ttl, key, u)
    ensures Consistent(uuids, left - {key}, now, ttl, filed, out)
  {
    var left' := left - {key};
    forall k, v | Listed(left', k, v) ensures Listed(left, k, v) {
    }
    forall v | v in filed && Reachable(left, v, filed[v]) && !Expired(filed[v].at, ttl, now)
      ensures Reachable(left', v, filed[v])
    {
      assert filed[v].event.key == key ==> Buffered(left, now, ttl, key, v);
      assert Listed(left', filed[v].event.key, v);
    }
  }

  /** Where a live right record and a live buffered left event share a key, some right event
    * of that key is still unacknowledged and will drain the buffer when redelivered. */
  ghost predicate Served(left: map<string, Entry>, lnow: nat, lttl: nat, right: map<string, Entry>, rnow: nat,
                         rttl: nat, pending: set<Event>) {
    forall k, u :: k in right && !Expired(right[k].written, rttl, rnow) && Buffered(left, lnow, lttl, k, u) ==>
      Unacked(pending, k)
  }

  ghost predicate Unacked(pending: set<Event>, key: string) {
    exists r :: r in pending && r.key == key
  }

  lemma LaterIsServed(left: map<string, Entry>, lnow: nat, lnow': nat, lttl: nat,
                      right: map<string, Entry>, rnow: nat, rnow': nat, rttl: nat, pending: set<Event>,
                        pending': set<Event>)
    requires Served(left, lnow, lttl, right, rnow, rttl, pending)
    requires lnow <= lnow' && rnow <= rnow' && pending <= pending'
    ensures Served(left, lnow', lttl, right, rnow', rttl, pending')
  {
    forall k, u | Buffered(left, lnow', lttl, k, u) ensures Buffered(left, lnow, lttl, k, u) {
    }
  }

  /** Shrinking the left bucket keeps every right record served. */
  lemma FewerIsServed(left: map<string, Entry>, left': map<string, Entry>, lnow: nat, lttl: nat,
                      right: map<string, Entry>, rnow: nat, rttl: nat, pending: set<Event>)
    requires Served(left, lnow, lttl, right, rnow, rttl, pending)
    requires forall k :: k in left' ==> k in left && left'[k] == left[k]
    ensures Served(left', lnow, lttl, right, rnow, rttl, pending)
  {
    forall k, u | Buffered(left', lnow, lttl, k, u) ensures Buffered(left, lnow, lttl, k, u) {
    }
  }

  /** Neither an unlisted message nor an index of a key without a live right record counts. */
  lemma StoreIsServed(uuids: nat -> string, left: map<string, Entry>, lnow: nat, lttl: nat, filed: map<string, Filing>,
                      u: string, value: Entry,
                      right: map<string, Entry>, rnow: nat, rttl: nat, pending: set<Event>)
    requires Layout(uuids, left, lnow, filed) && IsUuid(uuids, u) && u !in filed && value.value.Held?
    requires Served(left, lnow, lttl, right, rnow, rttl, pending)
    ensures Served(left[u := value], lnow, lttl, right, rnow, rttl, pending)
  {
    var left' := left[u := value];
    forall k, v | k in right && !Expired(right[k].written, rttl, rnow) && Buffered(left', lnow, lttl, k, v)
      ensures Unacked(pending, k)
    {
      assert k != u && Listed(left, k, v);
      assert Buffered(left, lnow, lttl, k, v);
    }
  }

  lemma FileIsServed(uuids: nat -> string, left: map<string, Entry>, lnow: nat, lttl: nat, filed: map<string, Filing>,
                     key: string, index: Entry,
                     right: map<string, Entry>, rnow: nat, rttl: nat, pending: set<Event>)
    requires Served(left, lnow, lttl, right, rnow, rttl, pending) && !IsUuid(uuids, key) && index.value.Text?
    requires key in right ==> Expired(right[key].written, rttl, rnow)
    requires Layout(uuids, left, lnow, filed)
    ensures Served(left[key := index], lnow, lttl, right, rnow, rttl, pending)
  {
    var left' := left[key := index];
    forall k, v | k in right && !Expired(right[k].written, rttl, rnow) && Buffered(left', lnow, lttl, k, v)
      ensures Unacked(pending, k)
    {
      assert k != key && Listed(left, k, v);
      assert Buffered(left, lnow, lttl, k, v);
    }
  }

  lemma FreshUuid(uuids: nat -> string, next: nat, left: map<string, Entry>, filed: map<string, Filing>)
    requires FreshSupply(uuids) && Generated(uuids, next, left, filed)
    ensures IsUuid(uuids, uuids(next)) && uuids(next) !in left && uuids(next) !in filed
  {
  }

  lemma StaysGenerated(uuids: nat -> string, next: nat, next': nat, left: map<string, Entry>,
                       filed: map<string, Filing>,
                       left': map<string, Entry>, filed': map<string, Filing>, u: string)
    requires Generated(uuids, next, left, filed) && next <= next'
    requires IsUuid(uuids, u) ==> exists m :: 0 <= m < next' && uuids(m) == u
    requires forall v :: IsUuid(uuids, v) && (v in left' || v in filed') ==> v in left || v in filed || v == u
    ensures Generated(uuids, next', left', filed')
  {
  }

  lemma FewerIsGenerated(uuids: nat -> string, next: nat, left: map<string, Entry>, filed: map<string, Filing>,
                         left': map<string, Entry>)
    requires Generated(uuids, next, left, filed) && left'.Keys <= left.Keys
    ensures Generated(uuids, next, left', filed)
  {
  }

  lemma FiledIsGenerated(uuids: nat -> string, next: nat, left: map<string, Entry>, filed: map<string, Filing>,
                         u: string, key: string,
                         left': map<string, Entry>, filed': map<string, Filing>)
    requires Generated(uuids, next, left, filed) && u in left && IsUuid(uuids, u) && !IsUuid(uuids, key)
    requires left'.Keys == left.Keys + {key} && filed'.Keys == filed.Keys + {u}
    ensures Generated(uuids, next, left', filed')
  {
  }

  ghost predicate IsFiled(filed: map<string, Filing>, e: Event) {
    exists u :: u in filed && filed[u].event == e
  }

  lemma NowFiled(filed: map<string, Filing>, u: string, e: Event)
    requires u in filed && filed[u].event == e
    ensures IsFiled(filed, e)
  {
  }

  ghost predicate FiledMore(filed: map<string, Filing>, filed': map<string, Filing>) {
    forall u :: u in filed ==> u in filed' && filed'[u] == filed[u]
  }

  // ----- The buckets as a table -----

  /** The words of an index name messages holding these events, in order. */
  ghost predicate Lined(uuids: nat -> string, left: map<string, Entry>, words: seq<string>, lefts: seq<Event>,
                        key: string) {
    && |words| == |lefts|
    && (forall i :: 0 <= i < |words| ==>
      words[i] in left && IsUuid(uuids, words[i]) && left[words[i]].value == Held(lefts[i]) && lefts[i].key == key)
    && (forall i, j :: 0 <= i < j < |words| ==> words[i] != words[j])
  }

  ghost predicate Represents(uuids: nat -> string, left: map<string, Entry>, right: map<string, Entry>, t: Table) {
    && (forall k :: k in right <==> k in t.latest)
    && (forall k :: k in right ==> right[k].value == Held(t.latest[k]))
    && (forall k :: k in left && !IsUuid(uuids, k) <==> k in t.waiting)
    && (forall k :: k in t.waiting ==>
      left[k].value.Text? && Lined(uuids, left, Split(left[k].value.text, ' '), t.waiting[k], k))
  }

  /** A list stays lined up while its words keep their entries. */
  lemma LinedFrame(uuids: nat -> string, left: map<string, Entry>, left': map<string, Entry>, words: seq<string>,
                   lefts: seq<Event>, key: string)
    requires Lined(uuids, left, words, lefts, key)
    requires forall w ::
      w in words && w in left && IsUuid(uuids, w) && left[w].value.Held? && left[w].value.event.key == key ==>
      w in left' && left'[w] == left[w]
    ensures Lined(uuids, left', words, lefts, key)
  {
    forall i | 0 <= i < |words| ensures words[i] in left' && left'[words[i]] == left[words[i]] {
      assert words[i] in words;
    }
  }

  lemma LinedAppend(uuids: nat -> string, left: map<string, Entry>, words: seq<string>, lefts: seq<Event>, key: string,
                    u: string, e: Event)
    requires Lined(uuids, left, words, lefts, key) && u !in words && IsUuid(uuids, u) && u in left &&
      left[u].value == Held(e) && e.key == key
    ensures Lined(uuids, left, words + [u], lefts + [e], key)
  {
    forall i | 0 <= i < |words| ensures words[i] != u {
      assert words[i] in words;
    }
  }

  lemma StoredLine(uuids: nat -> string, left: map<string, Entry>, words: seq<string>, lefts: seq<Event>, u: string,
                   e: Event, at: nat, entry: Entry)
    requires IsUuid(uuids, u) && u !in left && !IsUuid(uuids, e.key) && Lined(uuids, left, words, lefts, e.key)
    ensures Lined(uuids, left[u := Entry(Held(e), at)][e.key := entry], words + [u], lefts + [e], e.key)
  {
    var left' := left[u := Entry(Held(e), at)][e.key := entry];
    LinedFrame(uuids, left, left', words, lefts, e.key);
    LinedAppend(uuids, left', words, lefts, e.key, u, e);
  }

  lemma StoredRepresents(uuids: nat -> string, left: map<string, Entry>, right: map<string, Entry>, t: Table,
                         u: string, e: Event, at: nat, keys: string, now: nat)
    requires Represents(uuids, left, right, t) && e.key !in right && IsUuid(uuids, u) && u !in left &&
      !IsUuid(uuids, e.key)
    requires keys == if e.key in left then left[e.key].value.text else ""
    ensures Represents(uuids, left[u := Entry(Held(e), at)][e.key := Entry(Text(Appended(keys, u)), now)], right,
      Step(t, L(e)).0)
    ensures Step(t, L(e)).1 == []
  {
    var key, t', entry := e.key, Step(t, L(e)).0, Entry(Text(Appended(keys, u)), now);
    var left' := left[u := Entry(Held(e), at)][key := entry];
    SplitWord(u, ' ');
    SplitAppend(keys, u, ' ');
    if key in left {
      assert keys != "" by { LinesAreNotEmpty(uuids, left, keys, t.waiting[key], key); }
      StoredLine(uuids, left, Split(keys, ' '), t.waiting[key], u, e, at, entry);
    } else {
      StoredLine(uuids, left, [], [], u, e, at, entry);
    }
    ghost var text, words := Appended(keys, u), if key in left then Split(keys, ' ') else [];
    assert Split(text, ' ') == words + [u];
    hide Lined, Split, Appended;
    forall k | k in t'.waiting
      ensures left'[k].value.Text? && Lined(uuids, left', Split(left'[k].value.text, ' '), t'.waiting[k], k)
    {
      if k != key {
        LinedFrame(uuids, left, left', Split(left[k].value.text, ' '), t.waiting[k], k);
      } else if key !in left {
        assert [] + [u] == [u] && [] + [e] == [e];
      }
    }
  }

  lemma LinesAreNotEmpty(uuids: nat -> string, left: map<string, Entry>, keys: string, lefts: seq<Event>, key: string)
    requires Lined(uuids, left, Split(keys, ' '), lefts, key)
    ensures keys != ""
  {
    assert IsUuid(uuids, Split(keys, ' ')[0]);
  }

  function Minus(left: map<string, Entry>, words: seq<string>): map<string, Entry> {
    left - set w | w in words
  }

  lemma MinusNothing(left: map<string, Entry>)
    ensures Minus(left, []) == left
  {
  }

  /** The UUIDs listed under a key. */
  ghost function LineOf(left: map<string, Entry>, key: string): seq<string> {
    if key in left && left[key].value.Text? then Split(left[key].value.text, ' ') else []
  }

  lemma DrainedRepresents(uuids: nat -> string, left: map<string, Entry>, right: map<string, Entry>, t: Table,
                          r: Event, now: nat)
    requires Represents(uuids, left, right, t) && !IsUuid(uuids, r.key)
    ensures Lined(uuids, left, LineOf(left, r.key), WaitingOf(t, r.key), r.key)
    ensures Represents(uuids, Minus(left, LineOf(left, r.key)) - {r.key}, right[r.key := Entry(Held(r), now)],
      Step(t, R(r)).0)
  {
    var key, words := r.key, LineOf(left, r.key);
    var left', t' := Minus(left, words) - {key}, Step(t, R(r)).0;
    WordsHoldTheKey(uuids, left, words, WaitingOf(t, key), key);
    hide Lined;
    forall k | k in t'.waiting
      ensures k in left' && left'[k].value.Text? &&
        Lined(uuids, left', Split(left'[k].value.text, ' '), t'.waiting[k], k)
    {
      LinedFrame(uuids, left, left', Split(left[k].value.text, ' '), t.waiting[k], k);
    }
  }

  lemma WordsHoldTheKey(uuids: nat -> string, left: map<string, Entry>, words: seq<string>, lefts: seq<Event>,
                        key: string)
    requires Lined(uuids, left, words, lefts, key)
    ensures forall w :: w in words ==>
      w in left && IsUuid(uuids, w) && left[w].value.Held? && left[w].value.event.key == key
  {
  }

  ghost predicate HoldsRights(right: map<string, Entry>) {
    forall k :: k in right ==> right[k].value.Held? && right[k].value.event.key == k
  }

  class TemporalJoinExecutor {
    const leftKVStore: KVStore
    const rightKVStore: KVStore
    const results: Results
    const uuids: nat -> string
    const buildable: (Event, Event) -> bool
    var nextUuid: nat
    ghost var filed: map<string, Filing>
    ghost var disturbed: bool
    /** How often a key could not be read or a message not be built. */
    ghost var failures: nat

    constructor (leftKVStore: KVStore, rightKVStore: KVStore, results: Results, uuids: nat -> string,
                 buildable: (Event, Event) -> bool)
      requires leftKVStore != rightKVStore && leftKVStore.entries == rightKVStore.entries == map[] && FreshSupply(uuids)
      ensures this.leftKVStore == leftKVStore && this.rightKVStore == rightKVStore && this.results == results
      ensures Inv() && filed == map[] && !disturbed && failures == 0
    {
      this.leftKVStore, this.rightKVStore, this.results := leftKVStore, rightKVStore, results;
      this.uuids, this.buildable := uuids, buildable;
      nextUuid, filed, disturbed, failures := 0, map[], false, 0;
    }

    ghost predicate Inv()
      reads this`nextUuid, this`filed, leftKVStore`entries, leftKVStore`now, rightKVStore`entries, results`out
    {
      && leftKVStore != rightKVStore && FreshSupply(uuids)
      && Consistent(uuids, leftKVStore.entries, leftKVStore.now, leftKVStore.ttl, filed, results.out)
      && Generated(uuids, nextUuid, leftKVStore.entries, filed)
      && HoldsRights(rightKVStore.entries)
    }

    /** No call failed and nothing expired so far. */
    /** How many of the calls that a handler depends on failed so far. */
    ghost function Failures(): nat
      reads this`failures, leftKVStore`failures, rightKVStore`failures, results`failures
    {
      failures + leftKVStore.failures + rightKVStore.failures + results.failures
    }

    ghost predicate Undisturbed()
      reads this`disturbed, leftKVStore`disturbed, rightKVStore`disturbed, results`disturbed
    {
      !disturbed && !leftKVStore.disturbed && !rightKVStore.disturbed && !results.disturbed
    }

    ghost predicate Shows(t: Table)
      reads leftKVStore`entries, rightKVStore`entries
    {
      Represents(uuids, leftKVStore.entries, rightKVStore.entries, t)
    }

    method KeyOf(e: Event) returns (key: Option<string>)
      modifies this`disturbed, this`failures
      ensures key.Some? ==> key.value == e.key && disturbed == old(disturbed)
      ensures key.None? ==> disturbed
      ensures failures == old(failures) + (if key.None? then 1 else 0)
    {
      var ok := *;
      key := if ok then Some(e.key) else None;
      disturbed, failures := disturbed || !ok, failures + (if ok then 0 else 1);
    }

    method BuildJoinedMessage(l: Event, r: Event) returns (msg: Option<Joined>)
      modifies this`disturbed, this`failures
      ensures msg.Some? ==> msg.value == Joined(l, r) && disturbed == old(disturbed)
      ensures msg.None? ==> disturbed
      ensures failures == old(failures) + (if msg.None? then 1 else 0)
    {
      var configFound := *;
      var ok := configFound && buildable(l, r);
      msg := if ok then Some(Joined(l, r)) else None;
      disturbed, failures := disturbed || !ok, failures + (if ok then 0 else 1);
    }

    /** Tries again while the stream is full: it gives up only if the publish was refused for
      * another reason or the context is done. */
    method PublishJoinedMsg(msg: Joined) returns (ok: bool)
      modifies results
      ensures results.out == old(results.out) + (if ok then [msg] else [])
      ensures !results.disturbed ==> ok && !old(results.disturbed)
      ensures old(results.failures) <= results.failures && (!ok ==> results.failures > old(results.failures))
    {
      while true
        invariant results.out == old(results.out) && (!results.disturbed ==> !old(results.disturbed))
        invariant results.failures == old(results.failures)
        decreases results.cancelTick - results.ticks
      {
        var backpressure;
        ok, backpressure := results.Publish(msg);
        if ok {
          return;
        }
        var done := results.ContextIsDone();
        if done {
          return;
        }
        if !backpressure {
          return;
        }
        done := results.ContextIsDone();
        if done {
          return;
        }
      }
    }

    /** The invariant every step keeps; `pending` are the unacknowledged right events. */
    ghost predicate Sound(pending: set<Event>)
      reads this`nextUuid, this`filed, results`out
      reads leftKVStore`entries, leftKVStore`now, rightKVStore`entries, rightKVStore`now
    {
      && Inv()
      && Served(leftKVStore.entries, leftKVStore.now, leftKVStore.ttl, rightKVStore.entries, rightKVStore.now,
        rightKVStore.ttl, pending)
    }

    method GetLeft(key: string, ghost pending: set<Event>) returns (r: Lookup)
      requires Sound(pending)
      modifies leftKVStore`now, leftKVStore`disturbed, leftKVStore`failures
      ensures Sound(pending) && old(leftKVStore.now) <= leftKVStore.now
      ensures !leftKVStore.disturbed ==> !old(leftKVStore.disturbed) && leftKVStore.AllAlive() && !r.Failed?
      ensures leftKVStore.failures == old(leftKVStore.failures) + (if r.Failed? then 1 else 0)
      ensures r.Found? ==> leftKVStore.Alive(key) && leftKVStore.entries[key].value == r.value
      ensures r.Missing? ==> !leftKVStore.Alive(key)
    {
      hide Consistent, Served, Generated, FreshSupply, HoldsRights;
      ghost var left, now, right := leftKVStore.entries, leftKVStore.now, rightKVStore.entries;
      r := leftKVStore.Get(key);
      LaterIsConsistent(uuids, left, now, leftKVStore.now, leftKVStore.ttl, filed, results.out, results.out);
      LaterIsServed(left, now, leftKVStore.now, leftKVStore.ttl, right, rightKVStore.now, rightKVStore.now,
        rightKVStore.ttl, pending, pending);
    }

    method GetRight(key: string, ghost pending: set<Event>) returns (r: Lookup)
      requires Sound(pending)
      modifies rightKVStore`now, rightKVStore`disturbed, rightKVStore`failures
      ensures Sound(pending) && old(rightKVStore.now) <= rightKVStore.now
      ensures !rightKVStore.disturbed ==> !old(rightKVStore.disturbed) && rightKVStore.AllAlive() && !r.Failed?
      ensures rightKVStore.failures == old(rightKVStore.failures) + (if r.Failed? then 1 else 0)
      ensures r.Found? ==>
        rightKVStore.Alive(key) && rightKVStore.entries[key].value == r.value && r.value.Held? &&
          r.value.event.key == key
      ensures r.Missing? ==> !rightKVStore.Alive(key)
    {
      hide Consistent, Served, Generated, FreshSupply;
      ghost var left, right, now := leftKVStore.entries, rightKVStore.entries, rightKVStore.now;
      r := rightKVStore.Get(key);
      LaterIsServed(left, leftKVStore.now, leftKVStore.now, leftKVStore.ttl, right, now, rightKVStore.now,
        rightKVStore.ttl, pending, pending);
    }

    method PutRight(e: Event, ghost pending: set<Event>) returns (ok: bool)
      requires Sound(pending) && e in pending
      modifies rightKVStore`now, rightKVStore`entries, rightKVStore`disturbed, rightKVStore`failures
      ensures Sound(pending)
      ensures !rightKVStore.disturbed ==> !old(rightKVStore.disturbed) && ok
      ensures rightKVStore.failures == old(rightKVStore.failures) + (if ok then 0 else 1)
      ensures rightKVStore.entries == if ok then old(rightKVStore.entries)[e.key := Entry(Held(e), rightKVStore.now)]
        else old(rightKVStore.entries)
    {
      hide Consistent, Generated, FreshSupply, Buffered;
      assert Unacked(pending, e.key);
      ok := rightKVStore.Put(e.key, Held(e));
    }

    method PutMessage(e: Event, ghost pending: set<Event>) returns (ok: bool, u: string)
      requires Sound(pending)
      modifies this`nextUuid, leftKVStore`now, leftKVStore`entries, leftKVStore`disturbed, leftKVStore`failures
      ensures Sound(pending) && IsUuid(uuids, u) && u !in filed && u !in old(leftKVStore.entries) &&
        old(leftKVStore.now) <= leftKVStore.now
      ensures !leftKVStore.disturbed ==> !old(leftKVStore.disturbed) && ok
      ensures leftKVStore.failures == old(leftKVStore.failures) + (if ok then 0 else 1)
      ensures leftKVStore.entries == if ok then old(leftKVStore.entries)[u := Entry(Held(e), leftKVStore.now)]
        else old(leftKVStore.entries)
    {
      hide Consistent, Layout, NoLoss, Served, Generated, FreshSupply, HoldsRights;
      ghost var left, now, right := leftKVStore.entries, leftKVStore.now, rightKVStore.entries;
      FreshUuid(uuids, nextUuid, left, filed);
      u := uuids(nextUuid);
      nextUuid := nextUuid + 1;
      ok := leftKVStore.Put(u, Held(e));
      LaterIsConsistent(uuids, left, now, leftKVStore.now, leftKVStore.ttl, filed, results.out, results.out);
      LaterIsServed(left, now, leftKVStore.now, leftKVStore.ttl, right, rightKVStore.now, rightKVStore.now,
        rightKVStore.ttl, pending, pending);
      StaysGenerated(uuids, nextUuid - 1, nextUuid, left, filed, leftKVStore.entries, filed, u);
      if ok {
        ConsistentLayout(uuids, left, leftKVStore.now, leftKVStore.ttl, filed, results.out);
        StoreMessage(uuids, left, leftKVStore.now, leftKVStore.ttl, filed, results.out, u, e);
        StoreIsServed(uuids, left, leftKVStore.now, leftKVStore.ttl, filed, u, Entry(Held(e), leftKVStore.now),
                      right, rightKVStore.now, rightKVStore.ttl, pending);
      }
    }

    /** Writes the index back with the new UUID; from then on the message counts as filed. */
    method PutIndex(e: Event, keys: string, u: string, ghost at: nat, ghost pending: set<Event>) returns (ok: bool)
      requires Sound(pending) && IsUuid(uuids, u) && u !in filed && !IsUuid(uuids, e.key)
      requires u in leftKVStore.entries && leftKVStore.entries[u] == Entry(Held(e), at) && at <= leftKVStore.now
      requires IndexRead(leftKVStore.entries, leftKVStore.now, leftKVStore.ttl, e.key, keys)
      requires !rightKVStore.Alive(e.key)
      modifies this`filed, leftKVStore`now, leftKVStore`entries, leftKVStore`disturbed, leftKVStore`failures
      ensures Sound(pending)
      ensures filed == if ok then old(filed)[u := Filing(e, at)] else old(filed)
      ensures !leftKVStore.disturbed ==> !old(leftKVStore.disturbed) && ok
      ensures leftKVStore.failures == old(leftKVStore.failures) + (if ok then 0 else 1)
      ensures leftKVStore.entries ==
        if ok then old(leftKVStore.entries)[e.key := Entry(Text(Appended(keys, u)), leftKVStore.now)]
        else old(leftKVStore.entries)
    {
      hide Consistent, Layout, NoLoss, Served, Generated, FreshSupply, HoldsRights, IsUuid, Appended;
      ghost var left, now, right := leftKVStore.entries, leftKVStore.now, rightKVStore.entries;
      ok := leftKVStore.Put(e.key, Text(Appended(keys, u)));
      LaterIsConsistent(uuids, left, now, leftKVStore.now, leftKVStore.ttl, filed, results.out, results.out);
      LaterIsServed(left, now, leftKVStore.now, leftKVStore.ttl, right, rightKVStore.now, rightKVStore.now,
        rightKVStore.ttl, pending, pending);
      if ok {
        ConsistentLayout(uuids, left, leftKVStore.now, leftKVStore.ttl, filed, results.out);
        FileMessage(uuids, left, leftKVStore.now, leftKVStore.ttl, filed, results.out, keys, u, Filing(e, at));
        FileIsServed(uuids, left, leftKVStore.now, leftKVStore.ttl, filed, e.key,
          Entry(Text(Appended(keys, u)), leftKVStore.now),
                     right, rightKVStore.now, rightKVStore.ttl, pending);
        FiledIsGenerated(uuids, nextUuid, left, filed, u, e.key, leftKVStore.entries, filed[u := Filing(e, at)]);
        filed := filed[u := Filing(e, at)];
      }
    }

    method StoreToLeftStreamBuffer(e: Event, ghost pending: set<Event>, ghost t: Table) returns (ok: bool)
      requires Sound(pending) && !IsUuid(uuids, e.key) && !rightKVStore.Alive(e.key)
      modifies this`nextUuid, this`filed
      modifies leftKVStore`now, leftKVStore`entries, leftKVStore`disturbed, leftKVStore`failures
      ensures !leftKVStore.disturbed ==> ok && !old(leftKVStore.disturbed)
      ensures leftKVStore.failures == old(leftKVStore.failures) + (if ok then 0 else 1)
      ensures Sound(pending) && FiledMore(old(filed), filed)
      ensures ok ==> IsFiled(filed, e)
      ensures !leftKVStore.disturbed && old(Shows(t)) && e.key !in rightKVStore.entries ==>
        Shows(Step(t, L(e)).0) && Step(t, L(e)).1 == []
    {
      hide Sound, IsUuid, Represents, Step, IsFiled;
      ghost var left := leftKVStore.entries;
      var r := GetLeft(e.key, pending);
      if r.Failed? {
        return false;
      }
      if r.Found? && r.value.Held? {
        LeftIsText(e.key, pending);
      }
      var keys := if r.Found? then r.value.text else "";
      var u;
      ok, u := PutMessage(e, pending);
      if !ok {
        return;
      }
      ghost var at := leftKVStore.now;
      NotTheUuid(e.key, u);
      ok := PutIndex(e, keys, u, at, pending);
      if ok {
        NowFiled(filed, u, e);
        if !leftKVStore.disturbed && old(Shows(t)) && e.key !in rightKVStore.entries {
          StoredRepresents(uuids, left, rightKVStore.entries, t, u, e, at, keys, leftKVStore.now);
        }
      }
    }

    lemma NotTheUuid(key: string, u: string)
      requires IsUuid(uuids, u) && !IsUuid(uuids, key)
      ensures key != u
    {
    }

    lemma LeftIsText(key: string, pending: set<Event>)
      requires Sound(pending) && key in leftKVStore.entries && !IsUuid(uuids, key)
      ensures leftKVStore.entries[key].value.Text?
    {
    }

    method PublishJoined(msg: Joined, ghost pending: set<Event>) returns (ok: bool)
      requires Sound(pending)
      modifies results
      ensures Sound(pending)
      ensures results.out == old(results.out) + (if ok then [msg] else [])
      ensures !results.disturbed ==> ok && !old(results.disturbed)
      ensures old(results.failures) <= results.failures && (!ok ==> results.failures > old(results.failures))
    {
      hide Consistent, Served, Generated, FreshSupply, HoldsRights;
      ghost var out := results.out;
      ok := PublishJoinedMsg(msg);
      LaterIsConsistent(uuids, leftKVStore.entries, leftKVStore.now, leftKVStore.now, leftKVStore.ttl, filed, out,
        results.out);
    }

    method DeleteMessage(u: string, ghost pending: set<Event>) returns (ok: bool)
      requires Sound(pending) && IsUuid(uuids, u) && u in leftKVStore.entries
      requires leftKVStore.entries[u].value.Held? && Published(leftKVStore.entries[u].value.event, results.out)
      modifies leftKVStore`now, leftKVStore`entries, leftKVStore`disturbed, leftKVStore`failures
      ensures Sound(pending) && old(leftKVStore.now) <= leftKVStore.now
      ensures !leftKVStore.disturbed ==> !old(leftKVStore.disturbed) && ok
      ensures leftKVStore.failures == old(leftKVStore.failures) + (if ok then 0 else 1)
      ensures leftKVStore.entries == if ok then old(leftKVStore.entries) - {u} else old(leftKVStore.entries)
    {
      hide Consistent, Served, Generated, FreshSupply, HoldsRights, Published, IsUuid;
      ghost var left, now, right := leftKVStore.entries, leftKVStore.now, rightKVStore.entries;
      ok := leftKVStore.Delete(u);
      LaterIsConsistent(uuids, left, now, leftKVStore.now, leftKVStore.ttl, filed, results.out, results.out);
      LaterIsServed(left, now, leftKVStore.now, leftKVStore.ttl, right, rightKVStore.now, rightKVStore.now,
        rightKVStore.ttl, pending, pending);
      if ok {
        DropMessage(uuids, left, leftKVStore.now, leftKVStore.ttl, filed, results.out, u);
        FewerIsServed(left, leftKVStore.entries, leftKVStore.now, leftKVStore.ttl, right, rightKVStore.now,
          rightKVStore.ttl, pending);
        FewerIsGenerated(uuids, nextUuid, left, filed, leftKVStore.entries);
      }
    }

    method DeleteIndex(key: string, ghost pending: set<Event>) returns (ok: bool)
      requires Sound(pending) && !IsUuid(uuids, key)
      requires forall u :: !Buffered(leftKVStore.entries, leftKVStore.now, leftKVStore.ttl, key, u)
      modifies leftKVStore`now, leftKVStore`entries, leftKVStore`disturbed, leftKVStore`failures
      ensures Sound(pending)
      ensures forall u :: !Buffered(leftKVStore.entries, leftKVStore.now, leftKVStore.ttl, key, u)
      ensures !leftKVStore.disturbed ==> !old(leftKVStore.disturbed) && ok
      ensures leftKVStore.failures == old(leftKVStore.failures) + (if ok then 0 else 1)
      ensures leftKVStore.entries == if ok then old(leftKVStore.entries) - {key} else old(leftKVStore.entries)
    {
      hide Consistent, Served, Generated, FreshSupply, HoldsRights, IsUuid;
      ghost var left, now, right := leftKVStore.entries, leftKVStore.now, rightKVStore.entries;
      ok := leftKVStore.Delete(key);
      LaterIsConsistent(uuids, left, now, leftKVStore.now, leftKVStore.ttl, filed, results.out, results.out);
      LaterIsServed(left, now, leftKVStore.now, leftKVStore.ttl, right, rightKVStore.now, rightKVStore.now,
        rightKVStore.ttl, pending, pending);
      forall u ensures !Buffered(left, leftKVStore.now, leftKVStore.ttl, key, u) {
        assert !Buffered(left, now, leftKVStore.ttl, key, u);
      }
      if ok {
        DropIndex(uuids, left, leftKVStore.now, leftKVStore.ttl, filed, results.out, key);
        FewerIsServed(left, leftKVStore.entries, leftKVStore.now, leftKVStore.ttl, right, rightKVStore.now,
          rightKVStore.ttl, pending);
        FewerIsGenerated(uuids, nextUuid, left, filed, leftKVStore.entries);
      }
    }

    /** No longer in the bucket, or past its TTL. */
    ghost predicate Gone(u: string)
      reads leftKVStore`entries, leftKVStore`now
    {
      u == "" || !leftKVStore.Alive(u)
    }

    /** Joins one buffered message with the right event and removes it. */
    method DrainOne(u: string, r: Event, ghost pending: set<Event>, ghost lefts: seq<Event>) returns (ok: bool)
      requires Sound(pending) && Listed(leftKVStore.entries, r.key, u) && u != ""
      modifies this`disturbed, this`failures, results
      modifies leftKVStore`now, leftKVStore`entries, leftKVStore`disturbed, leftKVStore`failures
      ensures Sound(pending) && (ok ==> Gone(u)) && old(leftKVStore.now) <= leftKVStore.now &&
        old(results.out) <= results.out
      ensures leftKVStore.entries == old(leftKVStore.entries) || leftKVStore.entries == old(leftKVStore.entries) - {u}
      ensures Undisturbed() ==> ok && old(Undisturbed())
      ensures old(Failures()) <= Failures() && (!ok ==> Failures() > old(Failures()))
      ensures Undisturbed() && u in old(leftKVStore.entries) && IsUuid(uuids, u) &&
              old(leftKVStore.entries[u].value.Held?) ==>
                leftKVStore.entries == old(leftKVStore.entries) - {u} &&
                results.out == old(results.out) + [Joined(old(leftKVStore.entries)[u].value.event, r)]
    {
      hide Sound, Listed, IsUuid;
      ListedFacts(r.key, u, pending);
      var found := GetLeft(u, pending);
      if found.Failed? {
        return false;
      }
      if found.Missing? {
        return true;
      }
      var l := found.value.event;
      var msg := BuildJoinedMessage(l, r);
      if msg.None? {
        return false;
      }
      ok := PublishJoined(msg.value, pending);
      if !ok {
        return;
      }
      assert results.out[|results.out| - 1] == Joined(l, r);
      assert Published(l, results.out);
      ok := DeleteMessage(u, pending);
    }

    lemma ListedFacts(key: string, u: string, pending: set<Event>)
      requires Sound(pending) && Listed(leftKVStore.entries, key, u) && u != ""
      ensures IsUuid(uuids, u)
      ensures u in leftKVStore.entries ==>
        leftKVStore.entries[u].value.Held? && leftKVStore.entries[u].value.event.key == key
    {
    }

    /** Nothing live is buffered under the key any more. */
    ghost predicate Drained(key: string)
      reads leftKVStore`entries, leftKVStore`now
    {
      forall u :: !Buffered(leftKVStore.entries, leftKVStore.now, leftKVStore.ttl, key, u)
    }

    /** An index that is not found has outlived everything it lists. */
    lemma DeadIndex(key: string, pending: set<Event>)
      requires Sound(pending) && !leftKVStore.Alive(key)
      ensures Drained(key)
    {
    }

    lemma AllGone(key: string, words: seq<string>)
      requires key in leftKVStore.entries && leftKVStore.entries[key].value.Text?
      requires words == Split(leftKVStore.entries[key].value.text, ' ')
      requires forall i :: 0 <= i < |words| ==> Gone(words[i])
      ensures Drained(key)
    {
    }

    /** How far a drain has come in a run without faults. */
    ghost predicate Draining(left: map<string, Entry>, out: seq<Joined>, words: seq<string>, lefts: seq<Event>,
                             r: Event, j: nat)
      requires j <= |words|
      reads leftKVStore`entries, results`out
    {
      && Lined(uuids, left, words, lefts, r.key)
      && leftKVStore.entries == Minus(left, words[..j])
      && results.out == out + Paired(lefts[..j], r)
    }

    lemma DrainStep(left: map<string, Entry>, out: seq<Joined>, words: seq<string>, lefts: seq<Event>, r: Event, j: nat,
                    before: map<string, Entry>, done: seq<Joined>)
      requires Lined(uuids, left, words, lefts, r.key) && j < |words|
      requires before == Minus(left, words[..j]) && done == out + Paired(lefts[..j], r)
      requires leftKVStore.entries == before - {words[j]} &&
        results.out == done + [Joined(before[words[j]].value.event, r)]
      requires words[j] in before && before[words[j]].value.Held?
      ensures Draining(left, out, words, lefts, r, j + 1)
    {
      assert words[..j + 1] == words[..j] + [words[j]];
      assert Paired(lefts[..j + 1], r) == Paired(lefts[..j], r) + [Joined(lefts[j], r)];
    }

    lemma DrainNext(left: map<string, Entry>, words: seq<string>, lefts: seq<Event>, key: string, j: nat)
      requires Lined(uuids, left, words, lefts, key) && j < |words|
      ensures words[j] in Minus(left, words[..j]) && IsUuid(uuids, words[j]) &&
        Minus(left, words[..j])[words[j]].value == Held(lefts[j])
    {
    }

    method GetFromLeftStreamBuffer(r: Event, ghost pending: set<Event>, ghost lefts: seq<Event>) returns (ok: bool)
      requires Sound(pending) && !IsUuid(uuids, r.key)
      modifies this`disturbed, this`failures, results
      modifies leftKVStore`now, leftKVStore`entries, leftKVStore`disturbed, leftKVStore`failures
      ensures Sound(pending) && (ok ==> Drained(r.key)) && old(results.out) <= results.out
      ensures Undisturbed() ==> ok && old(Undisturbed())
      ensures old(Failures()) <= Failures() && (!ok ==> Failures() > old(Failures()))
      ensures var left, words := old(leftKVStore.entries), LineOf(old(leftKVStore.entries), r.key);
              Undisturbed() && Lined(uuids, left, words, lefts, r.key) ==>
                leftKVStore.entries == Minus(left, words) - {r.key} &&
                  results.out == old(results.out) + Paired(lefts, r)
    {
      hide Sound, IsUuid, Lined, Minus, Drained;
      ghost var left, out, key := leftKVStore.entries, results.out, r.key;
      var index := GetLeft(r.key, pending);
      if index.Failed? {
        return false;
      }
      LinedLength(left, LineOf(left, key), lefts, key);
      if index.Missing? {
        DeadIndex(r.key, pending);
        MinusNothing(left);
        assert results.out == out + [];
        return true;
      }
      LeftIsText(r.key, pending);
      var words := Split(index.value.text, ' ');
      ok := DrainAll(words, r, pending, lefts);
      if !ok {
        return;
      }
      AllGone(r.key, words);
      assert words[..|words|] == words;
      assert Lined(uuids, left, words, lefts, key) ==> lefts[..|words|] == lefts;
      DrainedIsReady(r.key);
      var _ := DeleteIndex(r.key, pending);
      DrainedAgain(r.key);
    }

    lemma LinedLength(left: map<string, Entry>, words: seq<string>, lefts: seq<Event>, key: string)
      ensures Lined(uuids, left, words, lefts, key) ==> |words| == |lefts|
    {
    }

    lemma DrainedIsReady(key: string)
      requires Drained(key)
      ensures forall u :: !Buffered(leftKVStore.entries, leftKVStore.now, leftKVStore.ttl, key, u)
    {
    }

    lemma DrainedAgain(key: string)
      requires forall u :: !Buffered(leftKVStore.entries, leftKVStore.now, leftKVStore.ttl, key, u)
      ensures Drained(key)
    {
    }

    method DrainAll(words: seq<string>, r: Event, ghost pending: set<Event>, ghost lefts: seq<Event>) returns (ok: bool)
      requires Sound(pending) && !IsUuid(uuids, r.key)
      requires r.key in leftKVStore.entries && leftKVStore.entries[r.key].value.Text? &&
        words == Split(leftKVStore.entries[r.key].value.text, ' ')
      modifies this`disturbed, this`failures, results
      modifies leftKVStore`now, leftKVStore`entries, leftKVStore`disturbed, leftKVStore`failures
      ensures Sound(pending) && old(results.out) <= results.out
      ensures r.key in leftKVStore.entries && leftKVStore.entries[r.key] == old(leftKVStore.entries[r.key])
      ensures ok ==> forall i :: 0 <= i < |words| ==> Gone(words[i])
      ensures Undisturbed() ==> ok && old(Undisturbed())
      ensures old(Failures()) <= Failures() && (!ok ==> Failures() > old(Failures()))
      ensures Undisturbed() && Lined(uuids, old(leftKVStore.entries), words, lefts, r.key) ==>
                Draining(old(leftKVStore.entries), old(results.out), words, lefts, r, |words|)
    {
      hide Sound, IsUuid, Lined;
      ghost var left, out := leftKVStore.entries, results.out;
      assert words[..0] == [] && lefts[..0] == [];
      for j := 0 to |words|
        invariant Sound(pending) && old(results.out) <= results.out
        invariant r.key in leftKVStore.entries && leftKVStore.entries[r.key] == left[r.key]
        invariant forall i :: 0 <= i < j ==> Gone(words[i])
        invariant (Undisturbed() ==> old(Undisturbed())) && old(Failures()) <= Failures()
        invariant Undisturbed() && Lined(uuids, left, words, lefts, r.key) ==> Draining(left, out, words, lefts, r, j)
      {
        if words[j] == "" {
          EmptyWord(left, words, lefts, r.key, j);
          continue;
        }
        ghost var before, done := leftKVStore.entries, results.out;
        ghost var tracked := Undisturbed() && Lined(uuids, left, words, lefts, r.key);
        if tracked {
          DrainNext(left, words, lefts, r.key, j);
        }
        assert Listed(leftKVStore.entries, r.key, words[j]);
        ListedFacts(r.key, words[j], pending);
        NotTheUuid(r.key, words[j]);
        ok := DrainOne(words[j], r, pending, lefts);
        if !ok {
          return;
        }
        if tracked && Undisturbed() {
          DrainStep(left, out, words, lefts, r, j, before, done);
        }
      }
      ok := true;
    }

    lemma EmptyWord(left: map<string, Entry>, words: seq<string>, lefts: seq<Event>, key: string, j: nat)
      requires j < |words| && words[j] == ""
      ensures !Lined(uuids, left, words, lefts, key)
    {
    }

    lemma Separate(pending: set<Event>)
      requires Sound(pending)
      ensures leftKVStore != rightKVStore
    {
    }

    /** `t` is any table the buckets may show; in a run without faults the handler makes its step. */
    method HandleLeftStreamEvents(e: Event, ghost pending: set<Event>, ghost t: Table) returns (ok: bool)
      requires Sound(pending) && !IsUuid(uuids, e.key)
      modifies this`nextUuid, this`filed, this`disturbed, this`failures, results
      modifies rightKVStore`now, rightKVStore`disturbed, rightKVStore`failures
      modifies leftKVStore`now, leftKVStore`entries, leftKVStore`disturbed, leftKVStore`failures
      ensures Sound(pending) && FiledMore(old(filed), filed) && old(results.out) <= results.out
      ensures ok ==> IsFiled(filed, e) || Published(e, results.out)
      ensures Undisturbed() ==> ok && old(Undisturbed())
      ensures old(Failures()) <= Failures() && (!ok ==> Failures() > old(Failures()))
      ensures Undisturbed() && old(Shows(t)) ==>
        Shows(Step(t, L(e)).0) && results.out == old(results.out) + Step(t, L(e)).1
    {
      hide Sound, IsUuid, IsFiled, Lined;
      Separate(pending);
      var key := KeyOf(e);
      if key.None? {
        return false;
      }
      var found := GetRight(key.value, pending);
      if found.Failed? {
        return false;
      }
      if found.Missing? {
        ok := StoreToLeftStreamBuffer(e, pending, t);
        return;
      }
      var r := found.value.event;
      var msg := BuildJoinedMessage(e, r);
      if msg.None? {
        return false;
      }
      ok := PublishJoined(msg.value, pending);
      assert ok ==> results.out[|results.out| - 1] == Joined(e, r);
    }

    method HandleRightStreamEvents(e: Event, ghost pending: set<Event>, ghost t: Table) returns (ok: bool)
      requires Sound(pending) && !IsUuid(uuids, e.key) && e in pending
      modifies this`disturbed, this`failures, results
      modifies leftKVStore`now, leftKVStore`entries, leftKVStore`disturbed, leftKVStore`failures
      modifies rightKVStore`now, rightKVStore`entries, rightKVStore`disturbed, rightKVStore`failures
      ensures Sound(pending) && (ok ==> Drained(e.key)) && old(results.out) <= results.out
      ensures Undisturbed() ==> ok && old(Undisturbed())
      ensures old(Failures()) <= Failures() && (!ok ==> Failures() > old(Failures()))
      ensures Undisturbed() && old(Shows(t)) ==>
        Shows(Step(t, R(e)).0) && results.out == old(results.out) + Step(t, R(e)).1
    {
      hide Sound, IsUuid, Drained, Lined, Represents;
      Separate(pending);
      var key := KeyOf(e);
      if key.None? {
        return false;
      }
      ghost var left, right := leftKVStore.entries, rightKVStore.entries;
      ok := PutRight(e, pending);
      if !ok {
        return;
      }
      ghost var at := rightKVStore.now;
      ok := GetFromLeftStreamBuffer(e, pending, WaitingOf(t, e.key));
      if old(Shows(t)) {
        DrainedRepresents(uuids, left, right, t, e, at);
      }
    }
  }

  /** An acknowledged left event is published joined, outlived its TTL in the buffer, or is
    * still found through the index of its key. */
  ghost predicate Kept(e: Event, left: map<string, Entry>, now: nat, ttl: nat, filed: map<string, Filing>,
                       out: seq<Joined>) {
    || Published(e, out)
    || exists u :: u in filed && filed[u].event == e && (Expired(filed[u].at, ttl, now) || Reachable(left, u, filed[u]))
  }

  lemma AnsweredIsKept(uuids: nat -> string, e: Event, left: map<string, Entry>, now: nat, ttl: nat,
                       filed: map<string, Filing>, out: seq<Joined>)
    requires Consistent(uuids, left, now, ttl, filed, out) && (IsFiled(filed, e) || Published(e, out))
    ensures Kept(e, left, now, ttl, filed, out)
  {
    if !Published(e, out) {
      var u :| u in filed && filed[u].event == e;
      assert Published(filed[u].event, out) || Expired(filed[u].at, ttl, now) || Reachable(left, u, filed[u]);
    }
  }

  lemma StaysAnswered(e: Event, filed: map<string, Filing>, filed': map<string, Filing>, out: seq<Joined>,
                      out': seq<Joined>)
    requires IsFiled(filed, e) || Published(e, out)
    requires FiledMore(filed, filed') && out <= out'
    ensures IsFiled(filed', e) || Published(e, out')
  {
    if Published(e, out) {
      var i :| 0 <= i < |out| && out[i].left == e && out[i].right.key == e.key;
      assert out'[i] == out[i];
    } else {
      var u :| u in filed && filed[u].event == e;
      assert filed'[u].event == e;
    }
  }

  /** The two subscriptions with their handlers behind one mutex: an event is acknowledged only
    * after its handler returned nil, and redelivered until then. */
  class JoinComponent {
    const executor: TemporalJoinExecutor
    var pendingLeft: set<Event>
    var pendingRight: set<Event>
    ghost var ackedLeft: set<Event>
    ghost var ackedRight: set<Event>
    /** How many acknowledgements failed. */
    ghost var failedAcks: nat

    constructor (executor: TemporalJoinExecutor)
      requires executor.Inv() && executor.leftKVStore.entries == map[]
      ensures this.executor == executor && pendingLeft == pendingRight == ackedLeft == ackedRight == {}
      ensures Valid() && failedAcks == 0
    {
      this.executor := executor;
      pendingLeft, pendingRight, ackedLeft, ackedRight, failedAcks := {}, {}, {}, {}, 0;
    }

    ghost predicate Answered()
      reads this`ackedLeft, executor`filed, executor.results`out
    {
      forall e :: e in ackedLeft ==> IsFiled(executor.filed, e) || Published(e, executor.results.out)
    }

    ghost predicate Valid()
      reads this`pendingLeft, this`pendingRight, this`ackedLeft, executor`nextUuid, executor`filed, executor.results`out
      reads executor.leftKVStore`entries, executor.leftKVStore`now, executor.rightKVStore`entries,
        executor.rightKVStore`now
    {
      && executor.Sound(pendingRight) && Answered()
      && forall e :: e in pendingLeft + pendingRight ==> !IsUuid(executor.uuids, e.key)
    }

    /** The guarantee for the user, at any moment of any run. */
    lemma NoLeftEventIsLost(e: Event)
      requires Valid() && e in ackedLeft
      ensures Kept(e, executor.leftKVStore.entries, executor.leftKVStore.now, executor.leftKVStore.ttl,
        executor.filed, executor.results.out)
    {
      hide Kept;
      AnsweredIsKept(executor.uuids, e, executor.leftKVStore.entries, executor.leftKVStore.now,
        executor.leftKVStore.ttl, executor.filed, executor.results.out);
    }

    /** Everything acknowledged on the left is kept. */
    ghost predicate AllKept()
      reads this`ackedLeft, executor`filed, executor.results`out, executor.leftKVStore`entries, executor.leftKVStore`now
    {
      forall e :: e in ackedLeft ==>
        Kept(e, executor.leftKVStore.entries, executor.leftKVStore.now, executor.leftKVStore.ttl, executor.filed,
          executor.results.out)
    }

    /** Where a live right record meets a live buffered left event, some right event of that key
      * is still unacknowledged. */
    ghost predicate AllServed()
      reads this`pendingRight, executor.leftKVStore`entries, executor.leftKVStore`now,
        executor.rightKVStore`entries, executor.rightKVStore`now
    {
      Served(executor.leftKVStore.entries, executor.leftKVStore.now, executor.leftKVStore.ttl,
             executor.rightKVStore.entries, executor.rightKVStore.now, executor.rightKVStore.ttl, pendingRight)
    }

    lemma ValidIsSafe()
      requires Valid()
      ensures AllKept() && AllServed()
    {
      hide Kept;
      forall e | e in ackedLeft
        ensures Kept(e, executor.leftKVStore.entries, executor.leftKVStore.now, executor.leftKVStore.ttl,
          executor.filed, executor.results.out)
      {
        NoLeftEventIsLost(e);
      }
    }

    /** The source stream's side of an acknowledgement, which may fail. */
    method Ack() returns (acked: bool)
      modifies this`failedAcks
      ensures failedAcks == old(failedAcks) + (if acked then 0 else 1)
    {
      acked := *;
      if !acked {
        failedAcks := failedAcks + 1;
      }
    }

    /** An event stays pending, so that it is delivered again, until it is acknowledged, and it is
      * acknowledged exactly when it was handled and the acknowledgement worked. */
    method OnLeft(e: Event) returns (handled: bool)
      requires Valid() && e in pendingLeft
      modifies this`pendingLeft, this`ackedLeft, this`failedAcks, executor, executor.results, executor.leftKVStore
      modifies executor.rightKVStore`now, executor.rightKVStore`disturbed, executor.rightKVStore`failures
      ensures Valid()
      ensures if handled && failedAcks == old(failedAcks)
        then pendingLeft == old(pendingLeft) - {e} && ackedLeft == old(ackedLeft) + {e}
        else pendingLeft == old(pendingLeft) && ackedLeft == old(ackedLeft)
      ensures executor.Undisturbed() ==> handled
      ensures !handled ==> executor.Failures() > old(executor.Failures())
    {
      hide TemporalJoinExecutor.Sound, TemporalJoinExecutor.Shows, IsFiled, Published, FiledMore, IsUuid;
      ghost var filed, out := executor.filed, executor.results.out;
      handled := executor.HandleLeftStreamEvents(e, pendingRight, Table(map[], map[]));
      forall a | a in ackedLeft ensures IsFiled(executor.filed, a) || Published(a, executor.results.out) {
        StaysAnswered(a, filed, executor.filed, out, executor.results.out);
      }
      if !handled {
        return;
      }
      var acked := Ack();
      if acked {
        pendingLeft, ackedLeft := pendingLeft - {e}, ackedLeft + {e};
      }
    }

    method OnRight(e: Event) returns (handled: bool)
      requires Valid() && e in pendingRight
      modifies this`pendingRight, this`ackedRight, this`failedAcks
      modifies executor`disturbed, executor`failures, executor.results, executor.leftKVStore, executor.rightKVStore
      ensures Valid()
      ensures if handled && failedAcks == old(failedAcks)
        then pendingRight == old(pendingRight) - {e} && ackedRight == old(ackedRight) + {e}
        else pendingRight == old(pendingRight) && ackedRight == old(ackedRight)
      ensures executor.Undisturbed() ==> handled
      ensures !handled ==> executor.Failures() > old(executor.Failures())
    {
      hide TemporalJoinExecutor.Sound, TemporalJoinExecutor.Shows, TemporalJoinExecutor.Drained, IsFiled, Published,
        IsUuid;
      ghost var filed, out := executor.filed, executor.results.out;
      handled := executor.HandleRightStreamEvents(e, pendingRight, Table(map[], map[]));
      SameFiled(filed);
      forall a | a in ackedLeft ensures IsFiled(executor.filed, a) || Published(a, executor.results.out) {
        StaysAnswered(a, filed, executor.filed, out, executor.results.out);
      }
      if !handled {
        return;
      }
      var acked := Ack();
      if acked {
        DrainedMayAck(e);
        pendingRight, ackedRight := pendingRight - {e}, ackedRight + {e};
      }
    }

    lemma SameFiled(filed: map<string, Filing>)
      ensures FiledMore(filed, filed)
    {
    }

    /** A right event whose key is drained is needed by nobody any more. */
    lemma DrainedMayAck(e: Event)
      requires executor.Sound(pendingRight) && executor.Drained(e.key)
      ensures executor.Sound(pendingRight - {e})
    {
      hide Consistent, Generated, FreshSupply, HoldsRights, Buffered;
      forall k | k != e.key && Unacked(pendingRight, k) ensures Unacked(pendingRight - {e}, k) {
        var r :| r in pendingRight && r.key == k;
        assert r in pendingRight - {e};
      }
    }

    method Arrive(left: bool, e: Event)
      requires Valid() && !IsUuid(executor.uuids, e.key)
      modifies this`pendingLeft, this`pendingRight
      ensures Valid() && pendingLeft == old(pendingLeft) + (if left then {e} else {})
      ensures pendingRight == old(pendingRight) + (if left then {} else {e})
    {
      if left {
        pendingLeft := pendingLeft + {e};
      } else {
        PendingGrows(executor, pendingRight, e);
        pendingRight := pendingRight + {e};
      }
    }

    /** Any run: new events arrive, unacknowledged ones are delivered again, in any order. Of the
      * arrivals that came in every one is still pending or acknowledged. */
    method Run(arrivals: seq<Input>, steps: nat) returns (arrived: nat)
      requires Valid() && forall i :: 0 <= i < |arrivals| ==> !IsUuid(executor.uuids, arrivals[i].event.key)
      modifies this, executor, executor.results, executor.leftKVStore, executor.rightKVStore
      ensures Valid() && old(ackedLeft) <= ackedLeft && old(ackedRight) <= ackedRight && arrived <= |arrivals|
      ensures pendingLeft + ackedLeft == old(pendingLeft + ackedLeft) + Events(arrivals[..arrived], true)
      ensures pendingRight + ackedRight == old(pendingRight + ackedRight) + Events(arrivals[..arrived], false)
      ensures AllKept() && AllServed()
    {
      hide *;
      arrived := 0;
      NoEvents(arrivals);
      for i := 0 to steps
        invariant arrived <= |arrivals| && Valid() && old(ackedLeft) <= ackedLeft && old(ackedRight) <= ackedRight
        invariant pendingLeft + ackedLeft == old(pendingLeft + ackedLeft) + Events(arrivals[..arrived], true)
        invariant pendingRight + ackedRight == old(pendingRight + ackedRight) + Events(arrivals[..arrived], false)
      {
        if
        case arrived < |arrivals| =>
          OneMoreEvent(arrivals, arrived);
          Arrive(arrivals[arrived].L?, arrivals[arrived].event);
          arrived := arrived + 1;
        case pendingLeft != {} =>
          var e :| e in pendingLeft;
          var _ := OnLeft(e);
        case pendingRight != {} =>
          var e :| e in pendingRight;
          var _ := OnRight(e);
        case true =>
      }
      ValidIsSafe();
    }
  }

  /** The events that arrive on one side. */
  ghost function Events(inputs: seq<Input>, left: bool): set<Event> {
    set i | 0 <= i < |inputs| && inputs[i].L? == left :: inputs[i].event
  }

  lemma NoEvents(inputs: seq<Input>)
    ensures Events(inputs[..0], true) == Events(inputs[..0], false) == {}
  {
  }

  lemma OneMoreEvent(inputs: seq<Input>, i: nat)
    requires i < |inputs|
    ensures forall left ::
      Events(inputs[..i + 1], left)
        == Events(inputs[..i], left) + (if inputs[i].L? == left then {inputs[i].event} else {})
  {
    assert inputs[..i + 1][i] == inputs[i];
    assert forall k :: 0 <= k < i ==> inputs[..i + 1][k] == inputs[..i][k];
  }

  /** Each event of a trace handled once, in the order of the trace, on empty buckets: unless a
    * call failed or an entry expired, the results are those the trace calls for. */
  method Replay(trace: seq<Input>, executor: TemporalJoinExecutor)
    requires executor.Inv() && executor.leftKVStore.entries == executor.rightKVStore.entries == map[] &&
      executor.results.out == []
    requires forall i :: 0 <= i < |trace| ==> !IsUuid(executor.uuids, trace[i].event.key)
    modifies executor, executor.results, executor.leftKVStore, executor.rightKVStore
    ensures executor.Undisturbed() ==> executor.results.out == Expected(trace)
    ensures executor.Undisturbed() ==> multiset(executor.results.out) == Owed(trace, |trace|)
  {
    hide TemporalJoinExecutor.Sound, TemporalJoinExecutor.Shows, IsUuid;
    ghost var pending: set<Event> := {};
    EmptyShows(executor);
    assert trace[..0] == [];
    for i := 0 to |trace|
      invariant executor.Sound(pending)
      invariant executor.Undisturbed() ==>
        executor.Shows(Run(trace[..i]).0) && executor.results.out == Run(trace[..i]).1
    {
      assert trace[..i + 1][..i] == trace[..i];
      ghost var t := Run(trace[..i]).0;
      var e := trace[i].event;
      var ok;
      if trace[i].L? {
        ok := executor.HandleLeftStreamEvents(e, pending, t);
      } else {
        PendingGrows(executor, pending, e);
        pending := pending + {e};
        ok := executor.HandleRightStreamEvents(e, pending, t);
      }
    }
    assert trace[..|trace|] == trace;
    RunIsExpected(trace);
    EachLeftJoinsOnce(trace);
  }

  lemma EmptyShows(executor: TemporalJoinExecutor)
    requires executor.Inv() && executor.leftKVStore.entries == executor.rightKVStore.entries == map[]
    ensures executor.Sound({}) && executor.Shows(Table(map[], map[]))
  {
  }

  lemma PendingGrows(executor: TemporalJoinExecutor, pending: set<Event>, e: Event)
    requires executor.Sound(pending)
    ensures executor.Sound(pending + {e})
  {
    hide Consistent, Generated, FreshSupply, HoldsRights;
    LaterIsServed(executor.leftKVStore.entries, executor.leftKVStore.now, executor.leftKVStore.now,
      executor.leftKVStore.ttl,
                  executor.rightKVStore.entries, executor.rightKVStore.now, executor.rightKVStore.now,
                    executor.rightKVStore.ttl,
                  pending, pending + {e});
  }
}
