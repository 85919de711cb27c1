/** The ClickHouse sink: one flush prepares a batch per schema version, sends each, and
  * settles every message by acknowledging, refusing or dead-lettering it. */
module Sink {
  import opened Batches
  import opened MessageBuffer
  import opened Settlement
  import opened SinkModel
  import opened SinkServices
  import opened WorkerPool
  import opened Wrappers

  ghost function RowIds(ps: seq<Processed>): (s: set<nat>) {
    set i | 0 <= i < |ps| && ps[i].Ready? :: ps[i].id
  }

  /** A driver batch with the ids it holds; an append that fails may leave it broken. */
  class ClickHouseBatch {
    const version: string
    var rows: seq<Processed>
    var cache: set<nat>

    constructor (version: string)
      ensures this.version == version && rows == [] && cache == {}
    {
      this.version := version;
      rows, cache := [], {};
    }

    method Append(p: Processed, o: Outside) returns (r: AppendResult)
      requires p.Ready?
      modifies this, o`disturbed, o`refusals
      ensures o.refusals == old(o.refusals) + (if r.Refused? then 1 else 0)
      ensures o.disturbed == (old(o.disturbed) || r.Refused?)
      ensures r.AlreadyExists? <==> p.id in old(cache)
      ensures r.AlreadyExists? ==> rows == old(rows) && cache == old(cache)
      ensures r.Appended? ==> rows == old(rows) + [p] && cache == old(cache) + {p.id}
      ensures r.Refused? ==> cache == old(cache)
    {
      if p.id in cache {
        return AlreadyExists;
      }
      cache := cache + {p.id};
      var err: Option<Error> := *;
      if err.Some? {
        rows, cache := *, cache - {p.id};
        o.RefuseRow();
        return Refused(err.value);
      }
      rows := rows + [p];
      return Appended;
    }

    /** Sends the rows and prepares the next batch; when only the latter fails the rows have
      * `landed` in ClickHouse although an error is returned. */
    method Send(o: Outside) returns (err: Option<Error>, ghost landed: bool)
      modifies this`rows, this`cache, o`stored, o`disturbed
      ensures o.disturbed == (old(o.disturbed) || err.Some?)
      ensures o.stored == old(o.stored) + (if landed then Landing(version, old(rows)) else {})
      ensures err.None? ==> landed && rows == [] && cache == {}
      ensures landed ==> forall i :: 0 <= i < |old(rows)| ==> o.Landed(old(rows)[i].msg)
    {
      landed := false;
      var sent := *;
      if !sent {
        var why := *;
        o.Disturb();
        return Some(why), landed;
      }
      o.stored, landed := o.stored + Landing(version, rows), true;
      forall i | 0 <= i < |rows| ensures o.Landed(rows[i].msg) {
        assert (version, rows[i]) in o.stored;
      }
      var unprepared := *;
      if unprepared {
        var why := *;
        o.Disturb();
        return Some(why), landed;
      }
      rows, cache := [], {};
      return None, landed;
    }
  }

  datatype SchemaBatch = SchemaBatch(batch: ClickHouseBatch, messages: seq<Msg>)

  /** Every schema version's batch holds exactly the rows of that version's accepted
    * messages, in order, and no two versions share a batch. */
  ghost predicate Holds(batches: map<string, SchemaBatch>, kept: seq<Processed>)
    reads set v | v in batches :: batches[v].batch
  {
    && (forall v :: v in batches ==> HoldsAt(batches[v], v, kept))
    && (forall v, w :: v in batches && w in batches && v != w ==> batches[v].batch != batches[w].batch)
    && (forall i :: 0 <= i < |kept| ==> kept[i].msg.version in batches)
  }

  ghost predicate HoldsAt(b: SchemaBatch, v: string, kept: seq<Processed>)
    reads b.batch
  {
    && b.batch.version == v
    && b.batch.rows == OfVersion(kept, v)
    && b.batch.cache == RowIds(OfVersion(kept, v))
    && b.messages == Msgs(OfVersion(kept, v))
  }

  ghost predicate AppendedAre(appended: map<string, seq<Processed>>, kept: seq<Processed>) {
    forall v: string :: OfVersion(kept, v) == if v in appended then appended[v] else []
  }

  ghost predicate NoneRepeated(rows: seq<Processed>) {
    && (forall i :: 0 <= i < |rows| ==> rows[i].Ready?)
    && (forall i, j :: 0 <= i < j < |rows| ==> rows[i].id != rows[j].id)
  }

  lemma NewId(rows: seq<Processed>, i: nat)
    requires NoneRepeated(rows) && i < |rows|
    ensures rows[i].id !in RowIds(rows[..i])
  {
  }

  /** Rows of one version that are no twins have different ids. */
  lemma {:induction false} VersionRepeatsNone(kept: seq<Processed>, v: string)
    requires NoTwins(kept) && forall i :: 0 <= i < |kept| ==> kept[i].Ready?
    ensures NoneRepeated(OfVersion(kept, v))
  {
    if kept != [] {
      var n := |kept| - 1;
      NoTwinsBefore(kept);
      VersionRepeatsNone(kept[..n], v);
      var rows := OfVersion(kept[..n], v);
      forall i | 0 <= i < |rows| && kept[n].msg.version == v ensures rows[i].id != kept[n].id {
        var j :| 0 <= j < n && kept[..n][j] == rows[i];
        assert !Twins(kept[j], kept[n]);
      }
    }
  }

  lemma IdsAppend(ps: seq<Processed>, p: Processed)
    requires p.Ready?
    ensures RowIds(ps + [p]) == RowIds(ps) + {p.id}
  {
    var all := ps + [p];
    assert forall i :: 0 <= i < |ps| ==> all[i] == ps[i];
    assert all[|ps|] == p;
  }

  /** The batch's id cache sees a message twice exactly when an accepted one is its twin. */
  lemma TwinIffCached(kept: seq<Processed>, p: Processed)
    requires p.Ready? && forall i :: 0 <= i < |kept| ==> kept[i].Ready?
    ensures TwinIn(kept, p) <==> p.id in RowIds(OfVersion(kept, p.msg.version))
  {
    var rows := OfVersion(kept, p.msg.version);
    if TwinIn(kept, p) {
      var i :| 0 <= i < |kept| && Twins(kept[i], p);
      OfVersionHolds(kept, p.msg.version, kept[i]);
      var j :| 0 <= j < |rows| && rows[j] == kept[i];
      assert rows[j].id in RowIds(rows);
    }
    if p.id in RowIds(rows) {
      var j :| 0 <= j < |rows| && rows[j].Ready? && rows[j].id == p.id;
      var i :| 0 <= i < |kept| && kept[i] == rows[j];
      assert Twins(kept[i], p);
    }
  }

  lemma {:induction false} NoneOfVersion(kept: seq<Processed>, v: string)
    requires forall i :: 0 <= i < |kept| ==> kept[i].msg.version != v
    ensures OfVersion(kept, v) == []
  {
    if kept != [] {
      NoneOfVersion(kept[..|kept| - 1], v);
    }
  }

  /** A schema version seen for the first time gets an empty batch. */
  lemma HoldsWithNew(batches: map<string, SchemaBatch>, kept: seq<Processed>, v: string, b: ClickHouseBatch)
    requires Holds(batches, kept) && v !in batches && forall w :: w in batches ==> batches[w].batch != b
    requires b.version == v && b.rows == [] && b.cache == {}
    ensures Holds(batches[v := SchemaBatch(b, [])], kept)
  {
    NoneOfVersion(kept, v);
  }

  ghost function Drivers(batches: map<string, SchemaBatch>): set<ClickHouseBatch> {
    set v | v in batches :: batches[v].batch
  }

  /** As Holds, but nothing is known about the batch of one version. */
  ghost predicate HoldsExcept(batches: map<string, SchemaBatch>, kept: seq<Processed>, v: string)
    reads set w | w in batches && w != v :: batches[w].batch
  {
    && (forall w :: w in batches && w != v ==> HoldsAt(batches[w], w, kept))
    && (forall w, x :: w in batches && x in batches && w != x ==> batches[w].batch != batches[x].batch)
    && (forall i :: 0 <= i < |kept| ==> kept[i].msg.version in batches)
    && (v in batches ==> batches[v].messages == Msgs(OfVersion(kept, v)) && batches[v].batch.version == v)
  }

  lemma HoldsSplit(batches: map<string, SchemaBatch>, kept: seq<Processed>, v: string)
    requires Holds(batches, kept) && v in batches
    ensures HoldsExcept(batches, kept, v)
    ensures batches[v].batch.rows == OfVersion(kept, v) && batches[v].batch.cache == RowIds(OfVersion(kept, v))
    ensures forall w :: w in batches && w != v ==> batches[w].batch != batches[v].batch
  {
  }

  /** The batch of one version took one more row. */
  lemma HoldsWithRow(batches: map<string, SchemaBatch>, kept: seq<Processed>, p: Processed)
    requires p.Ready? && HoldsExcept(batches, kept, p.msg.version) && p.msg.version in batches
    requires var rows, b := OfVersion(kept, p.msg.version), batches[p.msg.version].batch;
      b.rows == rows + [p] && b.cache == RowIds(rows) + {p.id}
    ensures var b := batches[p.msg.version];
      Holds(batches[p.msg.version := SchemaBatch(b.batch, b.messages + [p.msg])], kept + [p])
  {
    var v := p.msg.version;
    var b := batches[v];
    var batches' := batches[v := SchemaBatch(b.batch, b.messages + [p.msg])];
    forall w | w in batches' ensures HoldsAt(batches'[w], w, kept + [p]) {
      OfVersionAppend(kept, w, p);
      if w == v {
        IdsAppend(OfVersion(kept, v), p);
        assert Msgs(OfVersion(kept, v) + [p]) == Msgs(OfVersion(kept, v)) + [p.msg];
      }
    }
  }

  lemma HoldsUnchanged(batches: map<string, SchemaBatch>, kept: seq<Processed>, v: string)
    requires HoldsExcept(batches, kept, v) && v in batches
    requires batches[v].batch.rows == OfVersion(kept, v) && batches[v].batch.cache == RowIds(OfVersion(kept, v))
    ensures Holds(batches, kept)
  {
  }

  /** A batch that was filled again from the start takes the place of a broken one. */
  lemma HoldsAgain(batches: map<string, SchemaBatch>, kept: seq<Processed>, v: string, b: ClickHouseBatch)
    requires HoldsExcept(batches, kept, v) && v in batches && b !in Drivers(batches) && b.version == v
    requires b.rows == OfVersion(kept, v) && b.cache == RowIds(OfVersion(kept, v))
    ensures Holds(batches[v := batches[v].(batch := b)], kept)
  {
    var batches' := batches[v := batches[v].(batch := b)];
    forall w | w in batches' ensures HoldsAt(batches'[w], w, kept) {
      assert w != v ==> HoldsAt(batches[w], w, kept);
    }
    forall w | w in batches' && w != v ensures batches'[w].batch != b {
      assert batches[w].batch in Drivers(batches);
    }
  }

  lemma AppendedMore(appended: map<string, seq<Processed>>, kept: seq<Processed>, p: Processed)
    requires AppendedAre(appended, kept)
    ensures var v := p.msg.version;
      AppendedAre(appended[v := (if v in appended then appended[v] else []) + [p]], kept + [p])
  {
    var v := p.msg.version;
    var appended' := appended[v := (if v in appended then appended[v] else []) + [p]];
    forall w: string ensures OfVersion(kept + [p], w) == if w in appended' then appended'[w] else [] {
      OfVersionAppend(kept, w, p);
    }
  }

  class ClickHouseSink {
    const pool: Pool
    const o: Outside

    constructor (workers: nat, configs: map<string, Config>, mapper: Mapper, o: Outside)
      requires workers > 0
      ensures this.o == o && fresh(pool) && Valid() && pool.Idle()
      ensures pool.configs == configs && pool.mapper == mapper && pool.workers == workers
    {
      this.o := o;
      pool := new Pool(workers, configs, mapper, o);
    }

    ghost predicate Valid()
      reads pool, o`disturbed
    {
      pool.o == o && pool.Valid()
    }

    method CreateBatchForSchemaVersion(v: string) returns (r: Option<ClickHouseBatch>)
      modifies o`disturbed, o`unmade
      ensures o.disturbed == (old(o.disturbed) || r.None?)
      ensures o.unmade == old(o.unmade) + (if r.None? then 1 else 0)
      ensures r.Some? ==> fresh(r.value) && r.value.version == v && r.value.rows == [] && r.value.cache == {}
    {
      var fails := *;
      if fails {
        o.RefuseBatch();
        return None;
      }
      var b := new ClickHouseBatch(v);
      return Some(b);
    }

    /** Fills a new batch with everything its version had accepted so far. */
    method Replay(b: ClickHouseBatch, appended: seq<Processed>) returns (err: Option<Error>)
      requires b.rows == [] && b.cache == {} && NoneRepeated(appended)
      modifies b, o`disturbed, o`refusals
      ensures old(o.refusals) <= o.refusals && (err.None? <==> o.refusals == old(o.refusals))
      ensures old(o.disturbed) ==> o.disturbed
      ensures err.None? ==> b.rows == appended && b.cache == RowIds(appended)
    {
      for i := 0 to |appended|
        invariant b.rows == appended[..i] && b.cache == RowIds(appended[..i]) && (old(o.disturbed) ==> o.disturbed)
        invariant o.refusals == old(o.refusals)
      {
        NewId(appended, i);
        var r := b.Append(appended[i], o);
        if !r.Appended? {
          var why := *;
          return Some(why);
        }
        assert appended[..i + 1] == appended[..i] + [appended[i]];
        IdsAppend(appended[..i], appended[i]);
      }
      assert appended[..|appended|] == appended;
      return None;
    }

    /** The batch of a schema version, created when the version is first met. */
    method BatchFor(v: string, batches: map<string, SchemaBatch>, ghost kept: seq<Processed>)
      returns (err: Option<Error>, batches': map<string, SchemaBatch>)
      requires Holds(batches, kept)
      modifies o`disturbed, o`unmade
      ensures o.disturbed == (old(o.disturbed) || err.Some?)
      ensures o.unmade == old(o.unmade) + (if err.Some? then 1 else 0)
      ensures fresh(Drivers(batches') - Drivers(batches))
      ensures err.None? ==> Holds(batches', kept) && v in batches'
    {
      batches', err := batches, None;
      if v !in batches {
        var b := CreateBatchForSchemaVersion(v);
        if b.None? {
          var why := *;
          err := Some(why);
          return;
        }
        HoldsWithNew(batches, kept, v, b.value);
        batches' := batches[v := SchemaBatch(b.value, [])];
      }
    }

    /** After a refused append the batch is made anew from what its version had accepted. */
    method Rebuild(v: string, batches: map<string, SchemaBatch>, rows: seq<Processed>, ghost kept: seq<Processed>)
      returns (err: Option<Error>, batches': map<string, SchemaBatch>)
      requires HoldsExcept(batches, kept, v) && v in batches && rows == OfVersion(kept, v)
      requires NoneRepeated(rows)
      modifies o`disturbed, o`unmade, o`refusals
      ensures old(o.unmade) <= o.unmade && old(o.refusals) <= o.refusals
      ensures err.None? <==> o.unmade == old(o.unmade) && o.refusals == old(o.refusals)
      ensures old(o.disturbed) ==> o.disturbed
      ensures fresh(Drivers(batches') - Drivers(batches))
      ensures err.None? ==> Holds(batches', kept)
    {
      batches' := batches;
      var b := CreateBatchForSchemaVersion(v);
      if b.None? {
        var why := *;
        err := Some(why);
        return;
      }
      err := Replay(b.value, rows);
      if err.None? {
        HoldsAgain(batches, kept, v, b.value);
        batches' := batches[v := batches[v].(batch := b.value)];
      }
    }

    /** The append itself, and what each answer leaves. */
    method AppendTo(p: Processed, batches: map<string, SchemaBatch>, ghost kept: seq<Processed>)
      returns (r: AppendResult, batches': map<string, SchemaBatch>)
      requires p.Ready? && Holds(batches, kept) && p.msg.version in batches
      modifies Drivers(batches), o`disturbed, o`refusals
      ensures o.refusals == old(o.refusals) + (if r.Refused? then 1 else 0)
      ensures o.disturbed == (old(o.disturbed) || r.Refused?)
      ensures Drivers(batches') == Drivers(batches)
      ensures r.AlreadyExists? <==> p.id in RowIds(OfVersion(kept, p.msg.version))
      ensures r.Appended? ==> Holds(batches', kept + [p])
      ensures r.AlreadyExists? ==> Holds(batches', kept)
      ensures r.Refused? ==> batches' == batches && HoldsExcept(batches, kept, p.msg.version)
    {
      hide Holds, HoldsExcept, OfVersion, RowIds;
      var v := p.msg.version;
      var b := batches[v];
      batches' := batches;
      HoldsSplit(batches, kept, v);
      r := b.batch.Append(p, o);
      if r.Appended? {
        HoldsWithRow(batches, kept, p);
        batches' := batches[v := SchemaBatch(b.batch, b.messages + [p.msg])];
        SameBatches(batches, batches', v);
      } else if r.AlreadyExists? {
        HoldsUnchanged(batches, kept, v);
      }
    }

    /** Appends one mapped message; a refusal dead-letters it and leaves all others in place. */
    method AppendRow(p: Processed, batches: map<string, SchemaBatch>, appended: map<string, seq<Processed>>,
                     ghost kept: seq<Processed>)
      returns (err: Option<Error>, r: AppendResult, batches': map<string, SchemaBatch>,
               appended': map<string, seq<Processed>>)
      requires p.Ready? && Holds(batches, kept) && AppendedAre(appended, kept)
      requires NoTwins(kept) && forall i :: 0 <= i < |kept| ==> kept[i].Ready?
      modifies o`dead, o`disturbed, o`failures, o`unmade, o`refusals, Drivers(batches)
      ensures old(o.dead) <= o.dead && fresh(Drivers(batches') - Drivers(batches)) && old(o.failures) <= o.failures
      ensures err.None? ==> o.failures == old(o.failures) && o.unmade == old(o.unmade)
      ensures err.None? ==> o.refusals == old(o.refusals) + (if r.Refused? then 1 else 0)
      ensures err.Some? ==>
        o.failures > old(o.failures) || o.unmade > old(o.unmade) || o.refusals >= old(o.refusals) + 2
      ensures old(o.disturbed) || err.Some? || r.Refused? ==> o.disturbed
      ensures err.None? ==> (r.AlreadyExists? <==> TwinIn(kept, p))
      ensures err.None? ==> o.dead == old(o.dead) + (if r.Refused? then {p.msg} else {})
      ensures err.None? && r.Appended? ==> Holds(batches', kept + [p]) && AppendedAre(appended', kept + [p])
      ensures err.None? && !r.Appended? ==> Holds(batches', kept) && AppendedAre(appended', kept)
    {
      hide TwinIn, AppendedAre, Holds, HoldsExcept, OfVersion, RowIds, NoTwins, NoneRepeated;
      var v := p.msg.version;
      appended' := appended;
      r := AlreadyExists;
      TwinIffCached(kept, p);
      err, batches' := BatchFor(v, batches, kept);
      if err.Some? {
        return;
      }
      r, batches' := AppendTo(p, batches', kept);
      if r.Appended? {
        AppendedMore(appended, kept, p);
        appended' := appended[v := (if v in appended then appended[v] else []) + [p]];
      }
      if r.Refused? {
        err := o.PushToDlq(p.msg);
        if err.Some? {
          return;
        }
        var rows := if v in appended then appended[v] else [];
        AppendedAt(appended, kept, v);
        VersionRepeatsNone(kept, v);
        err, batches' := Rebuild(v, batches', rows, kept);
      }
    }

    /** How far the assembly of a batch has come, when `dead` was dead-lettered before it. */
    ghost predicate Progress(ps: seq<Processed>, i: nat, refused: set<nat>, batches: map<string, SchemaBatch>,
                             appended: map<string, seq<Processed>>, failed: seq<Msg>, dead: set<Msg>)
      requires i <= |ps|
      reads o`dead, Drivers(batches)
    {
      var a := Assemble(ps[..i], refused);
      && Holds(batches, a.kept) && AppendedAre(appended, a.kept)
      && failed == a.failed && o.dead == dead + MsgSet(a.buried)
      && (forall k :: k in refused ==> k < i)
    }

    /** What one verdict does: the message is dead-lettered, found to be a duplicate, refused
      * by its batch, or appended. */
    method Place(ps: seq<Processed>, i: nat, batches: map<string, SchemaBatch>, appended: map<string, seq<Processed>>,
                 failed: seq<Msg>, ghost refused: set<nat>, ghost dead: set<Msg>)
      returns (err: Option<Error>, batches': map<string, SchemaBatch>, appended': map<string, seq<Processed>>,
               failed': seq<Msg>, ghost refused': set<nat>)
      requires i < |ps| && Progress(ps, i, refused, batches, appended, failed, dead)
      modifies o`dead, o`disturbed, o`failures, o`unmade, o`refusals, Drivers(batches)
      ensures old(o.dead) <= o.dead && fresh(Drivers(batches') - Drivers(batches)) && old(o.failures) <= o.failures
      ensures err.None? ==> o.failures == old(o.failures) && o.unmade == old(o.unmade)
      ensures err.None? ==> o.refusals == old(o.refusals) + (if refused' == refused then 0 else 1)
      ensures err.None? && refused' != refused ==> refused' == refused + {i} && i !in refused
      ensures err.Some? ==> refused' == refused
      ensures err.Some? ==>
        o.failures > old(o.failures) || o.unmade > old(o.unmade) || o.refusals >= old(o.refusals) + 2
      ensures old(o.disturbed) || err.Some? ==> o.disturbed
      ensures !o.disturbed ==> refused' == refused
      ensures err.None? ==> Progress(ps, i + 1, refused', batches', appended', failed', dead)
    {
      hide Assemble, OfVersion, TwinIn, Holds, AppendedAre;
      batches', appended', failed', refused' := batches, appended, failed, refused;
      ghost var a := Assemble(ps[..i], refused);
      AssembleNext(ps, refused, i);
      KeptIsSound(ps[..i], refused);
      var p := ps[i];
      MsgSetAppend(a.buried, p.msg);
      if p.Bad? {
        err := o.PushToDlq(p.msg);
        failed' := failed + [p.msg];
        return;
      }
      var r;
      err, r, batches', appended' := AppendRow(p, batches, appended, a.kept);
      if err.Some? {
        return;
      }
      if !r.Appended? {
        failed' := failed + [p.msg];
      }
      if r.Refused? {
        LaterRefusals(ps[..i], refused, {i});
        refused' := refused + {i};
        AssembleNext(ps, refused', i);
      }
    }

    /** Acknowledges one message after the other until one acknowledgement fails. */
    method AckMessages(messages: seq<Msg>) returns (err: Option<Error>)
      modifies o`acked, o`premature, o`disturbed, o`failures
      ensures old(o.failures) <= o.failures && (err.None? <==> o.failures == old(o.failures))
      ensures o.disturbed == (old(o.disturbed) || err.Some?)
      ensures old(o.acked) <= o.acked <= old(o.acked) + MsgSet(messages)
      ensures err.None? ==> o.acked == old(o.acked) + MsgSet(messages)
      ensures old(o.premature) <= o.premature
      ensures forall m :: m in o.premature ==> m in old(o.premature) || (m in messages && !o.Settled(m))
    {
      hide MsgSet;
      NoMessages(messages);
      for i := 0 to |messages|
        invariant o.disturbed == old(o.disturbed) && o.failures == old(o.failures)
        invariant o.acked == old(o.acked) + MsgSet(messages[..i]) && MsgSet(messages[..i]) <= MsgSet(messages)
        invariant old(o.premature) <= o.premature
        invariant forall m :: m in o.premature ==> m in old(o.premature) || (m in messages && !o.Settled(m))
      {
        MsgSetNext(messages, i);
        err := o.Ack(messages[i]);
        if err.Some? {
          return;
        }
      }
      err := None;
    }

    method NakMessages(messages: seq<Msg>)
      modifies o`refused
      ensures o.refused == old(o.refused) + MsgSet(messages)
    {
      hide MsgSet;
      NoMessages(messages);
      for i := 0 to |messages|
        invariant o.refused == old(o.refused) + MsgSet(messages[..i])
      {
        MsgSetNext(messages, i);
        o.Nak(messages[i]);
      }
    }

    /** Dead-letters and then acknowledges each message; never an acknowledgement first. */
    method FlushFailedBatch(messages: seq<Msg>) returns (err: Option<Error>)
      modifies o`dead, o`acked, o`premature, o`disturbed, o`failures
      ensures old(o.failures) <= o.failures && (err.None? <==> o.failures == old(o.failures))
      ensures o.disturbed == (old(o.disturbed) || err.Some?) && o.premature == old(o.premature)
      ensures old(o.dead) <= o.dead && old(o.acked) <= o.acked <= old(o.acked) + o.dead
      ensures err.None? ==> o.dead == old(o.dead) + MsgSet(messages) && o.acked == old(o.acked) + MsgSet(messages)
    {
      hide MsgSet;
      NoMessages(messages);
      for i := 0 to |messages|
        invariant o.premature == old(o.premature) && o.disturbed == old(o.disturbed) && o.failures == old(o.failures)
        invariant o.dead == old(o.dead) + MsgSet(messages[..i]) && o.acked == old(o.acked) + MsgSet(messages[..i])
      {
        MsgSetNext(messages, i);
        err := o.PushToDlq(messages[i]);
        if err.Some? {
          return;
        }
        err := o.Ack(messages[i]);
        if err.Some? {
          return;
        }
      }
      err := None;
    }

    /** The batches of one flush. `ps` are the verdicts, `refused` the refused appends. */
    method CreateCHBatches(messages: seq<Msg>)
      returns (err: Option<Error>, batches: map<string, SchemaBatch>, ghost ps: seq<Processed>, ghost refused: set<nat>)
      requires Valid()
      modifies pool`jobChan, pool`busy, pool`resultChan, pool`gaveUp
      modifies o`dead, o`acked, o`premature, o`disturbed, o`failures, o`unmade, o`refusals, o`down
      ensures Valid() && OwnVerdicts(ps, pool.configs, pool.mapper)
      ensures old(pool.Idle()) && (err.None? || ps != []) ==> AllFit(messages, ps, pool.configs, pool.mapper)
      ensures old(pool.gaveUp) ==> pool.gaveUp
      ensures old(pool.Idle()) && (!pool.gaveUp || !o.disturbed || err.None?) ==> pool.Idle()
      ensures fresh(Drivers(batches)) && old(o.dead) <= o.dead && old(o.acked) <= o.acked
      ensures forall m :: m in o.premature ==> m in old(o.premature) || m in Repeats(ps)
      ensures NoSilentTwins(ps) ==> Backed(old(o.acked), o.Entries())
      ensures old(o.failures) <= o.failures && (err.None? ==> o.failures == old(o.failures))
      ensures err.Some? && old(pool.Idle()) ==>
        pool.gaveUp || Spoilt(old(o.failures), old(o.unmade), old(o.refusals), refused)
      ensures old(o.disturbed) ==> o.disturbed
      ensures old(pool.Idle()) && !o.disturbed ==> err.None? && refused == {} && Exact(ps, pool.configs, pool.mapper)
      ensures err.None? ==> var a := Assemble(ps, refused);
        Holds(batches, a.kept) && o.Entries() == Opened(old(o.Entries()), a)
    {
      hide Assemble, OfVersion, Holds, AppendedAre, OwnVerdicts, Exact, AllFit, Repeats, RowIds, MsgSet, Opened, Backed,
        NoSilentTwins, Spoilt;
      err, batches, ps, refused := None, map[], [], {};
      EmptyProgress();
      NothingAcked(o.Entries());
      NothingYet(pool.configs, pool.mapper);
      if messages == [] {
        return;
      }
      var verdicts := pool.Dispatch(messages);
      if verdicts.None? {
        var why := *;
        err := Some(why);
        NothingAcked(o.Entries());
        return;
      }
      ps := verdicts.value;
      var failed;
      err, batches, failed, refused := PlaceAll(verdicts.value);
      if err.Some? {
        NothingAcked(o.Entries());
        return;
      }
      AssembledBooks(old(o.Entries()), o.Entries(), Assemble(ps, refused));
      if failed != [] {
        ghost var failures := o.failures;
        err := AckMessages(failed);
        FailedAreRepeats(ps, refused, o.dead);
        if o.failures > failures {
          FailureSpoils(failures);
        }
      }
      FailedAreBacked(ps, refused, old(o.acked), o.Entries());
    }

    /** Places one verdict after the other. */
    method PlaceAll(ps: seq<Processed>)
      returns (err: Option<Error>, batches: map<string, SchemaBatch>, failed: seq<Msg>, ghost refused: set<nat>)
      modifies o`dead, o`disturbed, o`failures, o`unmade, o`refusals
      ensures fresh(Drivers(batches)) && old(o.dead) <= o.dead && old(o.failures) <= o.failures
      ensures old(o.disturbed) || err.Some? ==> o.disturbed
      ensures !o.disturbed ==> refused == {}
      ensures err.None? ==> var a := Assemble(ps, refused);
        Holds(batches, a.kept) && failed == a.failed && o.dead == old(o.dead) + MsgSet(a.buried)
      ensures err.None? ==> o.failures == old(o.failures) && o.unmade == old(o.unmade)
      ensures err.None? ==> o.refusals == old(o.refusals) + |refused|
      ensures err.Some? ==> Spoilt(old(o.failures), old(o.unmade), old(o.refusals), refused)
    {
      hide Assemble, OfVersion, Holds, AppendedAre, RowIds, MsgSet;
      err, batches, failed, refused := None, map[], [], {};
      var appended: map<string, seq<Processed>> := map[];
      EmptyProgress();
      assert ps[..0] == [];
      for i := 0 to |ps|
        invariant err.None? && (old(o.disturbed) ==> o.disturbed) && (!o.disturbed ==> refused == {})
        invariant Progress(ps, i, refused, batches, appended, failed, old(o.dead))
        invariant fresh(Drivers(batches)) && old(o.dead) <= o.dead && o.failures == old(o.failures)
        invariant o.unmade == old(o.unmade) && o.refusals == old(o.refusals) + |refused|
      {
        var batches';
        err, batches', appended, failed, refused :=
          Place(ps, i, batches, appended, failed, refused, old(o.dead));
        if err.Some? {
          batches := map[];
          return;
        }
        assert Drivers(batches') <= Drivers(batches) + (Drivers(batches') - Drivers(batches));
        batches := batches';
      }
      assert ps[..|ps|] == ps;
    }

    lemma FailureSpoils(failures: nat)
      requires o.failures > failures
      ensures forall unmade, refusals, refused :: Spoilt(failures, unmade, refusals, refused)
    {
    }

    /** A dead-letter push or an acknowledgement failed, a driver batch could not be made, or an
      * append that had been accepted was refused when it was replayed. A refused append alone,
      * even of many messages, spoils nothing but those messages. */
    ghost predicate Spoilt(failures: nat, unmade: nat, refusals: nat, refused: set<nat>)
      reads o`failures, o`unmade, o`refusals
    {
      o.failures > failures || o.unmade > unmade || o.refusals >= refusals + |refused| + 2
    }

    ghost predicate AllAnswered(ms: seq<Msg>)
      reads o`acked, o`refused
    {
      forall i :: 0 <= i < |ms| ==> o.Answered(ms[i])
    }

    /** Sends one schema version's batch and settles its messages by `answer`, what the send
      * returned: stored and acknowledged, refused for another try if the error may pass, and
      * else dead-lettered and acknowledged. */
    method SendSchema(v: string, b: SchemaBatch, ghost kept: seq<Processed>)
      returns (err: Option<Error>, ghost answer: Option<Error>, ghost x: Outcome)
      requires HoldsAt(b, v, kept) && forall i :: 0 <= i < |kept| ==> kept[i].Ready?
      modifies b.batch`rows, b.batch`cache, o
      ensures old(o.failures) <= o.failures && (err.None? <==> o.failures == old(o.failures))
      ensures (old(o.disturbed) || err.Some? ==> o.disturbed) && o.premature == old(o.premature)
      ensures Grows(old(o.Entries()), o.Entries()) && Backed(old(o.acked), o.Entries())
      ensures Decided(x, v, answer) && o.stored == old(o.stored) + RowsIn(kept, x.stored)
      ensures err.None? ==> o.Entries() == Posted(old(o.Entries()), kept, x)
      ensures answer.Some? ==> o.disturbed
      ensures answer.Some? && answer.value.class_.Retryable? ==> err.None?
    {
      hide OfVersion, Landing, RowIds, MsgSet, MsgsIn, RowsIn, Backed, Posted, Grows, Verdict, Settling;
      ghost var books, landed := o.Entries(), true;
      if |b.batch.cache| == 0 {
        NoRows(OfVersion(kept, v));
        NothingIn(v);
        EmptyPosted(books, kept, v);
        err, answer, x := None, None, Verdict(v, None, true);
        return;
      }
      var failure;
      failure, landed := b.batch.Send(o);
      answer, x := failure, Verdict(v, failure, landed);
      ghost var sent := o.Entries();
      OnlyStored(books, sent);
      err := Settle(b.messages, failure);
      GrowsMore(books, sent, o.Entries());
      SettledAs(books, sent, kept, v, answer, landed);
    }

    /** Settles the messages of a schema batch by the answer to its send. */
    method Settle(messages: seq<Msg>, answer: Option<Error>) returns (err: Option<Error>)
      requires answer.None? ==> forall i :: 0 <= i < |messages| ==> o.Landed(messages[i])
      requires answer.Some? ==> o.disturbed
      modifies o`dead, o`acked, o`refused, o`premature, o`disturbed, o`failures
      ensures old(o.failures) <= o.failures && (err.None? <==> o.failures == old(o.failures))
      ensures (old(o.disturbed) || err.Some? ==> o.disturbed) && o.premature == old(o.premature)
      ensures Grows(old(o.Entries()), o.Entries()) && Backed(old(o.acked), o.Entries())
      ensures err.None? ==> o.Entries() == Settling(old(o.Entries()), MsgSet(messages), answer)
      ensures answer.Some? && answer.value.class_.Retryable? ==> err.None?
    {
      hide MsgSet, Backed;
      ghost var before := o.acked;
      InMsgSet(messages);
      match answer {
        case None =>
          err := AckMessages(messages);
          HadIsSafe(before, o.Entries());
        case Some(e) =>
          if e.class_.Retryable? {
            NakMessages(messages);
            NothingAcked(o.Entries());
            err := None;
          } else {
            err := FlushFailedBatch(messages);
            HadIsSafe(before, o.Entries());
          }
      }
    }

    /** Sends the schema batches in any order; `x` is what became of each version. */
    method SendAll(batches: map<string, SchemaBatch>, ghost kept: seq<Processed>, ghost ps: seq<Processed>)
      returns (err: Option<Error>, ghost x: Outcome)
      requires Holds(batches, kept) && forall i :: 0 <= i < |kept| ==> kept[i].Ready? && kept[i] in ps
      modifies Drivers(batches), o
      ensures old(o.failures) <= o.failures && (err.None? <==> o.failures == old(o.failures))
      ensures (old(o.disturbed) || err.Some? ==> o.disturbed) && o.premature == old(o.premature)
      ensures Grows(old(o.Entries()), o.Entries()) && Backed(old(o.acked), o.Entries())
      ensures OwnRows(old(o.stored), o.stored, ps)
      ensures err.None? ==> Settles(x, kept) && o.Entries() == Posted(old(o.Entries()), kept, x)
      ensures !o.disturbed ==> x.refused == {} && x.dead == {}
    {
      hide Holds, OfVersion, HoldsAt, MsgSet, MsgsIn, RowsIn, Backed, Posted, OwnRows, Grows, SentSoFar, Decided, Both;
      ghost var books := o.Entries();
      ghost var done := {};
      err, x := None, Outcome({}, {}, {}, {});
      HoldsParts(batches, kept);
      NothingSent(books, kept, ps);
      var todo := batches.Keys;
      while todo != {}
        invariant todo <= batches.Keys && done == batches.Keys - todo
        invariant forall v :: v in todo ==> HoldsAt(batches[v], v, kept)
        invariant old(o.failures) <= o.failures && (err.None? <==> o.failures == old(o.failures))
        invariant (old(o.disturbed) || err.Some? ==> o.disturbed) && o.premature == old(o.premature)
        invariant SentSoFar(books, o.Entries(), kept, ps, x, done, err.None?)
        invariant !o.disturbed ==> x.refused == {} && x.dead == {}
        decreases |todo|
      {
        var v :| v in todo;
        ghost var before, well := o.Entries(), err.None?;
        assert batches[v].batch in Drivers(batches);
        var failure;
        ghost var answer, y;
        failure, answer, y := SendSchema(v, batches[v], kept);
        OneMoreSent(books, before, o.Entries(), kept, ps, x, done, well, v, answer, y, failure.None?);
        if failure.Some? {
          err := failure;
        }
        x, todo, done := Both(x, y), todo - {v}, done + {v};
      }
      AllSent(books, o.Entries(), kept, ps, x, done, err.None?);
    }

    /** The books after a flush whose batches were made and sent without an error to report. */
    ghost predicate Closed(ps: seq<Processed>, refused: set<nat>, x: Outcome, books: Books)
      reads o`stored, o`dead, o`acked, o`refused
    {
      var a := Assemble(ps, refused);
      Settles(x, a.kept) && o.Entries() == Posted(Opened(books, a), a.kept, x)
    }

    /** What a flush in which no call fails leaves: the verdicts are those of configuration
      * and mapping, exactly the rows of the accepted messages are stored, unmapped messages
      * and no others are dead-lettered, and everything is acknowledged, nothing refused. */
    ghost predicate Smooth(messages: seq<Msg>, ps: seq<Processed>, books: Books)
      reads o`stored, o`dead, o`acked, o`refused
    {
      var a := Assemble(ps, {});
      && AllFit(messages, ps, pool.configs, pool.mapper) && Exact(ps, pool.configs, pool.mapper)
      && o.Entries() == Posted(Opened(books, a), a.kept, AllStored(Versions(a.kept)))
    }

    /** `ps` are the verdicts of the workers on this flush; `creation` is the error that making
      * the batches ended with, and if there is none `refused` are the refused appends and `x`
      * is what became of the versions. */
    method SendBatch(messages: seq<Msg>)
      returns (err: Option<Error>, ghost ps: seq<Processed>, ghost creation: Option<Error>, ghost refused: set<nat>,
               ghost x: Outcome)
      requires Valid()
      modifies pool`jobChan, pool`busy, pool`resultChan, pool`gaveUp, o
      ensures Valid() && OwnVerdicts(ps, pool.configs, pool.mapper)
      ensures old(pool.Idle()) && (ps != [] || creation.None?) ==> AllFit(messages, ps, pool.configs, pool.mapper)
      ensures old(pool.gaveUp) ==> pool.gaveUp
      ensures old(pool.Idle()) && (!pool.gaveUp || !o.disturbed || creation.None?) ==> pool.Idle()
      ensures Grows(old(o.Entries()), o.Entries()) && old(o.failures) <= o.failures
      ensures forall m :: m in o.premature ==> m in old(o.premature) || m in Repeats(ps)
      ensures NoSilentTwins(ps) ==> Backed(old(o.acked), o.Entries())
      ensures OwnRows(old(o.stored), o.stored, ps)
      ensures creation.None? ==> (err.None? <==> o.failures == old(o.failures))
      ensures creation.Some? && old(pool.Idle()) ==>
        pool.gaveUp || Spoilt(old(o.failures), old(o.unmade), old(o.refusals), refused)
      ensures creation.None? && err.None? ==> Closed(ps, refused, x, old(o.Entries()))
      ensures creation.Some? && creation.value.class_.Retryable? ==>
        err.None? && o.refused == old(o.refused) + MsgSet(messages)
      ensures creation.Some? && !creation.value.class_.Retryable? ==> err == creation && o.refused == old(o.refused)
      ensures err.None? && old(pool.Idle()) ==> AllAnswered(messages)
      ensures old(o.disturbed) ==> o.disturbed
      ensures old(pool.Idle()) && !o.disturbed ==> creation.None? && err.None? && Smooth(messages, ps, old(o.Entries()))
    {
      hide Holds, Assemble, OwnVerdicts, Exact, AllFit, Repeats, OwnRows, Backed, NoSilentTwins, Settles, Opened,
        Posted;
      ghost var books, idle := o.Entries(), pool.Idle();
      err, ps, creation, refused, x := None, [], None, {}, AllStored({});
      NothingStored(o.stored, ps);
      NothingAcked(books);
      NothingYet(pool.configs, pool.mapper);
      EmptyFlush(books, pool.configs, pool.mapper);
      if messages == [] {
        return;
      }
      var batches;
      err, batches, ps, refused := CreateCHBatches(messages);
      creation := err;
      ghost var a, made := Assemble(ps, refused), o.Entries();
      if err.Some? {
        NothingStored(o.stored, ps);
        if err.value.class_.Retryable? {
          NakMessages(messages);
          BackedStill(ps, books.acked, made, o.Entries());
          err := None;
        }
        return;
      }
      KeptIsSound(ps, refused);
      err, x := SendAll(batches, a.kept, ps);
      BackedStill(ps, books.acked, made, o.Entries());
      if err.None? {
        if idle {
          EverythingIsAnswered(messages, ps, refused, x, books, pool.configs, pool.mapper);
        }
        if !o.disturbed {
          PostedSmoothly(made, a.kept, x);
        }
      }
    }

    /** One flush. An acknowledgement is requested before its row is stored or its copy
      * dead-lettered only for a message that repeats an earlier one of the batch, and
      * without silent twins what is acknowledged is safe whatever fails; only rows of this
      * batch are stored, each under its own schema version and as its message maps; from an
      * idle pool no error means that every message was acknowledged or refused for
      * redelivery; and the pool is idle again unless the dispatch gave up.
      * An error means that a dead-letter push or an acknowledgement failed: whatever else
      * fails, the whole batch is asked for again if it may pass, and else dead-lettered and
      * acknowledged. */
    method FlushEvents(messages: seq<Msg>)
      returns (err: Option<Error>, ghost ps: seq<Processed>, ghost creation: Option<Error>, ghost refused: set<nat>,
               ghost x: Outcome)
      requires Valid()
      modifies pool`jobChan, pool`busy, pool`resultChan, pool`gaveUp, o
      ensures Valid() && OwnVerdicts(ps, pool.configs, pool.mapper)
      ensures old(pool.Idle()) && (ps != [] || creation.None?) ==> AllFit(messages, ps, pool.configs, pool.mapper)
      ensures old(pool.gaveUp) ==> pool.gaveUp
      ensures old(pool.Idle()) && (!pool.gaveUp || !o.disturbed || creation.None?) ==> pool.Idle()
      ensures Grows(old(o.Entries()), o.Entries()) && old(o.failures) <= o.failures
      ensures forall m :: m in o.premature ==> m in old(o.premature) || m in Repeats(ps)
      ensures NoSilentTwins(ps) ==> Backed(old(o.acked), o.Entries())
      ensures OwnRows(old(o.stored), o.stored, ps)
      ensures AllMapped(old(o.stored), o.stored, pool.configs, pool.mapper)
      ensures err.Some? ==> o.failures > old(o.failures)
      ensures creation.Some? && old(pool.Idle()) ==>
        pool.gaveUp || Spoilt(old(o.failures), old(o.unmade), old(o.refusals), refused)
      ensures creation.None? && o.failures == old(o.failures) ==> Closed(ps, refused, x, old(o.Entries()))
      ensures creation.None? && o.failures > old(o.failures) && err.None? ==> MsgSet(messages) <= o.dead * o.acked
      ensures creation.Some? && creation.value.class_.Retryable? ==>
        err.None? && o.refused == old(o.refused) + MsgSet(messages)
      ensures creation.Some? && !creation.value.class_.Retryable? ==> o.refused == old(o.refused)
      ensures creation.Some? && !creation.value.class_.Retryable? && err.None? ==> MsgSet(messages) <= o.dead * o.acked
      ensures err.None? && old(pool.Idle()) ==> AllAnswered(messages)
      ensures old(o.disturbed) ==> o.disturbed
      ensures old(pool.Idle()) && !o.disturbed ==> creation.None? && err.None? && Smooth(messages, ps, old(o.Entries()))
    {
      hide Smooth, Closed, OwnRows, Repeats, OwnVerdicts, AllFit, Backed, NoSilentTwins, AllMapped;
      ghost var before, stored := o.acked, o.stored;
      err, ps, creation, refused, x := SendBatch(messages);
      ghost var sent := o.Entries();
      RowsAreMapped(stored, o.stored, ps, pool.configs, pool.mapper);
      if err.Some? {
        err := FlushFailedBatch(messages);
        HadIsSafe(sent.acked, o.Entries());
        BackedStill(ps, before, sent, o.Entries());
      }
    }

    /** Takes what the buffer holds and flushes it; an error is only logged. */
    method FlushBuffer(buffer: Buffer<Msg>) returns (ghost report: Report)
      requires Valid()
      modifies buffer, pool`jobChan, pool`busy, pool`resultChan, pool`gaveUp, o
      ensures Valid() && buffer.messages == [] && buffer.History() == old(buffer.History())
      ensures report.messages == old(buffer.messages) && report.idle == old(pool.Idle()) && report.gaveUp == pool.gaveUp
      ensures buffer.extracted == old(buffer.extracted) + (if report.messages == [] then [] else [report.messages])
      ensures old(pool.gaveUp) ==> pool.gaveUp
      ensures report.idle && !pool.gaveUp ==> pool.Idle()
      ensures Grows(old(o.Entries()), o.Entries())
      ensures AnsweredBy(report, o.Entries(), pool.configs, pool.mapper)
      ensures forall m :: m in o.premature ==> m in old(o.premature) || m in Repeats(report.ps)
      ensures NoSilentTwins(report.ps) ==> Backed(old(o.acked), o.Entries())
      ensures OwnRows(old(o.stored), o.stored, report.ps)
      ensures AllMapped(old(o.stored), o.stored, pool.configs, pool.mapper)
      ensures old(o.failures) <= o.failures && (!report.nil ==> o.failures > old(o.failures))
      ensures old(o.disturbed) ==> o.disturbed
      ensures report.idle && !o.disturbed ==>
        pool.Idle() && report.nil && Smooth(report.messages, report.ps, old(o.Entries()))
    {
      hide Closed, OwnRows, Repeats, OwnVerdicts, AllFit, Backed, NoSilentTwins, Assemble, Posted, Opened, Exact;
      hide AllMapped;
      ghost var idle := pool.Idle();
      MappedStill(o.stored, o.stored, o.stored, pool.configs, pool.mapper);
      EmptyFlush(o.Entries(), pool.configs, pool.mapper);
      NothingStored(o.stored, []);
      NothingAcked(o.Entries());
      var batch := buffer.Extract();
      report := Report(batch, [], idle, true, pool.gaveUp);
      if batch != [] {
        var err;
        ghost var ps, creation, refused, x;
        err, ps, creation, refused, x := FlushEvents(batch);
        report := Report(batch, ps, idle, err.None?, pool.gaveUp);
      }
    }

    /** Any number of flushes, one at a time, between any appends, cut off at any point.
      * Until some dispatch gives up every flush finds the pool idle, and whatever fails a
      * flush that found it idle and reports no error has every message of its batch
      * acknowledged or refused. If no call fails at all the books are those of the accepted
      * rows of each batch, flush after flush. */
    method Serve(buffer: Buffer<Msg>, arrivals: seq<Msg>) returns (handled: nat, ghost log: seq<Report>)
      requires Valid() && pool.Idle() && !pool.gaveUp && buffer.messages == [] && buffer.extracted == []
      modifies buffer, pool`jobChan, pool`busy, pool`resultChan, pool`gaveUp, o
      ensures Valid() && handled <= |arrivals| && buffer.History() == arrivals[..handled]
      ensures |log| == |buffer.extracted| && forall k :: 0 <= k < |log| ==> log[k].messages == buffer.extracted[k]
      ensures IdleUntilGivenUp(log) && (!pool.gaveUp ==> pool.Idle() && forall k :: 0 <= k < |log| ==> log[k].idle)
      ensures Accounted(log, old(o.Entries()), old(o.premature), o.Entries(), o.premature, pool.configs, pool.mapper)
      ensures o.failures == old(o.failures) ==> NoErrors(log)
      ensures !o.disturbed ==> Smoothly(log, pool.configs, pool.mapper) && o.Entries() == Served(old(o.Entries()), log)
    {
      hide Serving;
      ghost var books, early, failures := o.Entries(), o.premature, o.failures;
      var cut := *;
      handled, log := 0, [];
      ServingBegins(buffer, books, early, failures);
      while
        invariant Serving(log, buffer, books, early, failures)
        invariant handled <= |arrivals| && buffer.History() == arrivals[..handled]
        decreases |arrivals| - handled, |buffer.messages|
      {
        case handled < |arrivals| && !cut =>
          var _ := buffer.Append(arrivals[handled]);
          handled, cut := handled + 1, *;
        case buffer.messages != [] && !cut =>
          log := FlushNext(buffer, log, books, early, failures);
          cut := *;
      }
      WhatIsServed(log, buffer, books, early, failures);
    }

    /** Between two flushes, when `books`, `early` and `failures` are those at the start. */
    ghost predicate Serving(log: seq<Report>, buffer: Buffer<Msg>, books: Books, early: set<Msg>, failures: nat)
      reads buffer`extracted, pool, o
    {
      && Valid() && |log| == |buffer.extracted|
      && (forall k :: 0 <= k < |log| ==> log[k].messages == buffer.extracted[k])
      && IdleUntilGivenUp(log) && (!pool.gaveUp ==> pool.Idle() && forall k :: 0 <= k < |log| ==> log[k].idle)
      && (if log == [] then !pool.gaveUp else log[|log| - 1].gaveUp == pool.gaveUp)
      && Accounted(log, books, early, o.Entries(), o.premature, pool.configs, pool.mapper)
      && failures <= o.failures && (o.failures == failures ==> NoErrors(log))
      && (!o.disturbed ==>
        pool.Idle() && Smoothly(log, pool.configs, pool.mapper) && o.Entries() == Served(books, log))
    }

    lemma ServingBegins(buffer: Buffer<Msg>, books: Books, early: set<Msg>, failures: nat)
      requires Valid() && pool.Idle() && !pool.gaveUp && buffer.extracted == []
      requires books == o.Entries() && early == o.premature && failures == o.failures
      ensures Serving([], buffer, books, early, failures)
    {
      NothingServed(books, early, pool.configs, pool.mapper);
    }

    lemma WhatIsServed(log: seq<Report>, buffer: Buffer<Msg>, books: Books, early: set<Msg>, failures: nat)
      requires Serving(log, buffer, books, early, failures)
      ensures Valid() && |log| == |buffer.extracted|
      ensures forall k :: 0 <= k < |log| ==> log[k].messages == buffer.extracted[k]
      ensures IdleUntilGivenUp(log) && (!pool.gaveUp ==> pool.Idle() && forall k :: 0 <= k < |log| ==> log[k].idle)
      ensures Accounted(log, books, early, o.Entries(), o.premature, pool.configs, pool.mapper)
      ensures o.failures == failures ==> NoErrors(log)
      ensures !o.disturbed ==> Smoothly(log, pool.configs, pool.mapper) && o.Entries() == Served(books, log)
    {
      hide IdleUntilGivenUp, Accounted, NoErrors, Smoothly, Served;
    }

    /** One more flush, reported. */
    method FlushNext(buffer: Buffer<Msg>, ghost log: seq<Report>, ghost books: Books, ghost early: set<Msg>,
                     ghost failures: nat)
      returns (ghost log': seq<Report>)
      requires Serving(log, buffer, books, early, failures) && buffer.messages != []
      modifies buffer, pool`jobChan, pool`busy, pool`resultChan, pool`gaveUp, o
      ensures Serving(log', buffer, books, early, failures)
      ensures buffer.messages == [] && buffer.History() == old(buffer.History())
    {
      hide Accounted, Smoothly, Served, Grows, Backed, OwnRows, NoSilentTwins, Repeats, Posted, Opened, Assemble,
        AllFit, Exact, OwnVerdicts, AnsweredBy, IdleUntilGivenUp, AllMapped, NoErrors;
      ghost var before, premature := o.Entries(), o.premature;
      ghost var report := FlushBuffer(buffer);
      OneMoreReport(log, report, books, early, before, premature, o.Entries(), o.premature, pool.configs, pool.mapper);
      IdleMore(log, report);
      if !o.disturbed {
        SmoothlyOn(log, report, books, o.Entries(), pool.configs, pool.mapper);
      }
      log' := log + [report];
    }
  }

  /** One flush: the messages taken, the verdicts on them, whether the pool was idle at the
    * start, whether no error was returned, and whether some dispatch has given up by its end. */
  datatype Report = Report(messages: seq<Msg>, ps: seq<Processed>, idle: bool, nil: bool, gaveUp: bool)

  /** From an idle pool no error means that every message was acknowledged or refused, and
    * the verdicts are those on the messages. */
  ghost predicate AnsweredBy(report: Report, b: Books, configs: map<string, Config>, mapper: Mapper) {
    && (report.idle && report.nil ==> MsgSet(report.messages) <= b.acked + b.refused)
    && (report.idle && report.ps != [] ==> AllFit(report.messages, report.ps, configs, mapper))
  }

  /** Up to and including the first flush whose dispatch gives up, every flush finds the pool idle. */
  ghost predicate IdleUntilGivenUp(log: seq<Report>) {
    forall k :: 0 <= k < |log| && (k == 0 || !log[k - 1].gaveUp) ==> log[k].idle
  }

  lemma IdleMore(log: seq<Report>, report: Report)
    requires IdleUntilGivenUp(log) && (log == [] || !log[|log| - 1].gaveUp ==> report.idle)
    ensures IdleUntilGivenUp(log + [report])
  {
    var log' := log + [report];
    forall k | 0 <= k < |log'| && (k == 0 || !log'[k - 1].gaveUp) ensures log'[k].idle {
      if k == |log| {
        assert log'[k] == report && (k > 0 ==> log'[k - 1] == log[|log| - 1]);
      } else {
        assert log'[k] == log[k] && (k > 0 ==> log'[k - 1] == log[k - 1]);
        assert log[k].idle;
      }
    }
  }

  ghost predicate RepeatedIn(log: seq<Report>, m: Msg) {
    exists k :: 0 <= k < |log| && m in Repeats(log[k].ps)
  }

  /** No flush had silent twins. */
  ghost predicate Trusted(log: seq<Report>) {
    forall k :: 0 <= k < |log| ==> NoSilentTwins(log[k].ps)
  }

  /** Every new row was made by some flush from a message of its version. */
  ghost predicate RowsOf(before: set<(string, Processed)>, after: set<(string, Processed)>, log: seq<Report>) {
    forall x :: x in after ==>
      x in before || exists k :: 0 <= k < |log| && x.1 in log[k].ps && x.1.Ready? && x.0 == x.1.msg.version
  }

  /** Every flush met no failure: its verdicts are those of configuration and mapping. */
  ghost predicate Smoothly(log: seq<Report>, configs: map<string, Config>, mapper: Mapper) {
    forall k :: 0 <= k < |log| ==>
      && log[k].idle && log[k].nil
      && AllFit(log[k].messages, log[k].ps, configs, mapper) && Exact(log[k].ps, configs, mapper)
  }

  /** The books after flushes in which no call fails. */
  ghost function Served(b: Books, log: seq<Report>): Books {
    if log == [] then b
    else
      var a := Assemble(log[|log| - 1].ps, {});
      Posted(Opened(Served(b, log[..|log| - 1]), a), a.kept, AllStored(Versions(a.kept)))
  }

  /** What is known of the flushes reported so far, when `books` and `early` are what the
    * books and the premature acknowledgements were before the first of them. */
  ghost predicate Accounted(log: seq<Report>, books: Books, early: set<Msg>, now: Books, premature: set<Msg>,
                            configs: map<string, Config>, mapper: Mapper) {
    && Grows(books, now)
    && (forall k :: 0 <= k < |log| ==> AnsweredBy(log[k], now, configs, mapper))
    && (forall m :: m in premature ==> m in early || RepeatedIn(log, m))
    && (Trusted(log) ==> Backed(books.acked, now))
    && RowsOf(books.stored, now.stored, log) && AllMapped(books.stored, now.stored, configs, mapper)
  }

  ghost predicate NoErrors(log: seq<Report>) {
    forall k :: 0 <= k < |log| ==> log[k].nil
  }

  lemma NothingServed(b: Books, early: set<Msg>, configs: map<string, Config>, mapper: Mapper)
    ensures Smoothly([], configs, mapper) && Served(b, []) == b && Accounted([], b, early, b, early, configs, mapper)
    ensures IdleUntilGivenUp([]) && NoErrors([])
  {
  }

  lemma OneMoreReport(log: seq<Report>, report: Report, books: Books, early: set<Msg>, before: Books,
                      premature: set<Msg>,
                      now: Books, premature': set<Msg>, configs: map<string, Config>, mapper: Mapper)
    requires Accounted(log, books, early, before, premature, configs, mapper) && Grows(before, now)
    requires AnsweredBy(report, now, configs, mapper)
    requires forall m :: m in premature' ==> m in premature || m in Repeats(report.ps)
    requires NoSilentTwins(report.ps) ==> Backed(before.acked, now)
    requires OwnRows(before.stored, now.stored, report.ps) && AllMapped(before.stored, now.stored, configs, mapper)
    ensures Accounted(log + [report], books, early, now, premature', configs, mapper)
    ensures NoErrors(log) && report.nil ==> NoErrors(log + [report])
  {
    hide NoSilentTwins, Repeats, AllFit, Backed;
    var log' := log + [report];
    assert log'[|log|] == report && forall k :: 0 <= k < |log| ==> log'[k] == log[k];
    forall m | m in premature' && m !in early ensures RepeatedIn(log', m) {
      if m in premature {
        var k :| 0 <= k < |log| && m in Repeats(log[k].ps);
        assert m in Repeats(log'[k].ps);
      } else {
        assert m in Repeats(log'[|log|].ps);
      }
    }
    if Trusted(log') {
      assert forall k :: 0 <= k < |log| ==> NoSilentTwins(log'[k].ps);
      BackedMore(books.acked, before, now);
    }
  }

  lemma SmoothlyOn(log: seq<Report>, report: Report, books: Books, now: Books, configs: map<string, Config>,
                   mapper: Mapper)
    requires Smoothly(log, configs, mapper) && report.idle && report.nil
    requires AllFit(report.messages, report.ps, configs, mapper) && Exact(report.ps, configs, mapper)
    requires var a := Assemble(report.ps, {});
      now == Posted(Opened(Served(books, log), a), a.kept, AllStored(Versions(a.kept)))
    ensures Smoothly(log + [report], configs, mapper) && now == Served(books, log + [report])
  {
    hide Assemble, Posted, Opened, AllFit, Exact;
    assert (log + [report])[..|log|] == log;
  }

  /** Messages that repeat the stream sequence and schema of one before them. */
  ghost function Repeats(ps: seq<Processed>): set<Msg> {
    set j | 0 <= j < |ps| && (exists i :: 0 <= i < j && Twins(ps[i], ps[j])) :: ps[j].msg
  }

  lemma EmptyProgress()
    ensures Holds(map[], []) && AppendedAre(map[], []) && Assemble([], {}) == Assembly([], [], []) && MsgSet([]) == {}
    ensures forall b :: Opened(b, Assemble([], {})) == b
  {
  }

  lemma NoMessages(ms: seq<Msg>)
    ensures ms[..0] == [] && MsgSet([]) == {} && MsgSet([]) <= MsgSet(ms) && ms[..|ms|] == ms
  {
  }

  lemma InMsgSet(ms: seq<Msg>)
    ensures forall m :: m in MsgSet(ms) <==> m in ms
  {
  }

  lemma AssembledBooks(b: Books, b': Books, a: Assembly)
    requires b' == b.(dead := b.dead + MsgSet(a.buried))
    ensures b'.(acked := b'.acked + MsgSet(a.failed)) == Opened(b, a)
  {
  }

  ghost predicate OwnRows(before: set<(string, Processed)>, after: set<(string, Processed)>, ps: seq<Processed>) {
    forall x :: x in after ==> x in before || (x.1 in ps && x.1.Ready? && x.0 == x.1.msg.version)
  }

  lemma NothingStored(stored: set<(string, Processed)>, ps: seq<Processed>)
    ensures OwnRows(stored, stored, ps)
  {
  }

  lemma RowsAreMapped(before: set<(string, Processed)>, after: set<(string, Processed)>, ps: seq<Processed>,
                      configs: map<string, Config>, mapper: Mapper)
    requires OwnRows(before, after, ps) && OwnVerdicts(ps, configs, mapper)
    ensures AllMapped(before, after, configs, mapper)
  {
    hide Prepared;
    forall x | x in after && x !in before ensures Mapped(x.0, x.1, configs, mapper) {
      var i :| 0 <= i < |ps| && ps[i] == x.1;
      PreparedMeans(ps[i].msg, configs, mapper);
    }
  }

  lemma MappedStill(a: set<(string, Processed)>, b: set<(string, Processed)>, c: set<(string, Processed)>,
                    configs: map<string, Config>, mapper: Mapper)
    requires (a == b || AllMapped(a, b, configs, mapper)) && (b == c || AllMapped(b, c, configs, mapper))
    ensures AllMapped(a, c, configs, mapper)
  {
  }

  lemma RowsAreOwn(ps: seq<Processed>, kept: seq<Processed>, versions: set<string>, before: set<(string, Processed)>,
                   stored: set<(string, Processed)>)
    requires OwnRows(before, stored, ps) && forall i :: 0 <= i < |kept| ==> kept[i].Ready? && kept[i] in ps
    ensures OwnRows(before, stored + RowsIn(kept, versions), ps)
  {
  }

  lemma NoRows(rows: seq<Processed>)
    requires forall i :: 0 <= i < |rows| ==> rows[i].Ready?
    ensures |RowIds(rows)| == 0 ==> rows == []
  {
    if rows != [] {
      assert rows[0].id in RowIds(rows);
    }
  }

  lemma NothingIn(v: string)
    ensures Landing(v, []) == {} && MsgSet(Msgs([])) == {}
  {
  }

  /** What the answer to the send of one version decides; `landed` if the rows are stored. */
  ghost function Verdict(v: string, answer: Option<Error>, landed: bool): Outcome {
    var stored := if landed then {v} else {};
    match answer
    case None => AllStored({v})
    case Some(e) => if e.class_.Retryable? then Outcome({}, {v}, {}, stored) else Outcome({v}, {}, {v}, stored)
  }

  ghost function Settling(b: Books, ms: set<Msg>, answer: Option<Error>): Books {
    match answer
    case None => b.(acked := b.acked + ms)
    case Some(e) =>
      if e.class_.Retryable? then b.(refused := b.refused + ms) else b.(dead := b.dead + ms, acked := b.acked + ms)
  }

  ghost predicate Decided(x: Outcome, v: string, answer: Option<Error>) {
    x == Verdict(v, answer, true) || x == Verdict(v, answer, false)
  }

  lemma OnlyStored(b: Books, b': Books)
    requires b.stored <= b'.stored && b' == b.(stored := b'.stored)
    ensures Grows(b, b') && Backed(b.acked, b')
  {
  }

  lemma EmptyPosted(b: Books, kept: seq<Processed>, v: string)
    requires OfVersion(kept, v) == []
    ensures Posted(b, kept, Verdict(v, None, true)) == b &&
      b.stored == b.stored + RowsIn(kept, Verdict(v, None, true).stored)
    ensures Grows(b, b) && Backed(b.acked, b)
  {
    NothingIn(v);
    OneVersion(b, kept, v, Verdict(v, None, true));
  }

  lemma SettledAs(b: Books, sent: Books, kept: seq<Processed>, v: string, answer: Option<Error>, landed: bool)
    requires sent == b.(stored := b.stored + (if landed then Landing(v, OfVersion(kept, v)) else {}))
    requires answer.None? ==> landed
    ensures var x := Verdict(v, answer, landed);
      && Settling(sent, MsgSet(Msgs(OfVersion(kept, v))), answer) == Posted(b, kept, x)
      && sent.stored == b.stored + RowsIn(kept, x.stored)
  {
    hide OfVersion, Landing, MsgSet, RowsIn, Posted;
    OneVersion(b, kept, v, Verdict(v, answer, landed));
  }

  /** What posting one version amounts to. */
  lemma OneVersion(b: Books, kept: seq<Processed>, v: string, x: Outcome)
    requires x.acked <= {v} && x.refused <= {v} && x.dead <= {v} && x.stored <= {v}
    ensures var ms, rows := MsgSet(Msgs(OfVersion(kept, v))), Landing(v, OfVersion(kept, v));
      Posted(b, kept, x) == Books(
        b.stored + (if v in x.stored then rows else {}), b.dead + (if v in x.dead then ms else {}),
        b.acked + (if v in x.acked then ms else {}), b.refused + (if v in x.refused then ms else {}))
    ensures Posted(b, kept, x).stored == b.stored + RowsIn(kept, x.stored)
  {
    hide OfVersion, Landing, MsgSet, MsgsIn, RowsIn;
    NoVersions(kept);
    OneMoreVersion(kept, {}, v);
    assert {} + {v} == {v};
    assert forall s: set<string> :: s <= {v} ==> s == {} || s == {v};
  }

  /** What is known once the versions in `done` were sent; `well` says without an error. */
  ghost predicate SentSoFar(b: Books, b': Books, kept: seq<Processed>, ps: seq<Processed>, x: Outcome,
                            done: set<string>, well: bool) {
    && Grows(b, b') && Backed(b.acked, b') && OwnRows(b.stored, b'.stored, ps)
    && (well ==> b' == Posted(b, kept, x) && SettledSoFar(x, done))
  }

  lemma NothingSent(b: Books, kept: seq<Processed>, ps: seq<Processed>)
    ensures SentSoFar(b, b, kept, ps, Outcome({}, {}, {}, {}), {}, true)
  {
    PostedNothing(b, kept);
  }

  lemma OneMoreSent(b: Books, b': Books, b'': Books, kept: seq<Processed>, ps: seq<Processed>, x: Outcome,
                    done: set<string>, well: bool, v: string, answer: Option<Error>, y: Outcome, sent: bool)
    requires SentSoFar(b, b', kept, ps, x, done, well)
    requires forall i :: 0 <= i < |kept| ==> kept[i].Ready? && kept[i] in ps
    requires v !in done && Decided(y, v, answer) && Grows(b', b'') && Backed(b'.acked, b'')
    requires b''.stored == b'.stored + RowsIn(kept, y.stored) && (sent ==> b'' == Posted(b', kept, y))
    ensures SentSoFar(b, b'', kept, ps, Both(x, y), done + {v}, well && sent)
    ensures answer.None? ==> Both(x, y).refused == x.refused && Both(x, y).dead == x.dead
  {
    hide RowsIn, Posted, OwnRows, Backed, Grows, SettledSoFar;
    RowsAreOwn(ps, kept, y.stored, b.stored, b'.stored);
    GrowsMore(b, b', b'');
    if well && sent {
      PostedTwice(b, kept, x, y);
      OneMoreSettled(x, done, y, v, answer);
    }
  }

  lemma AllSent(b: Books, b': Books, kept: seq<Processed>, ps: seq<Processed>, x: Outcome, done: set<string>,
                well: bool)
    requires SentSoFar(b, b', kept, ps, x, done, well) && Versions(kept) <= done
    ensures Grows(b, b') && Backed(b.acked, b') && OwnRows(b.stored, b'.stored, ps)
    ensures well ==> Settles(x, kept) && b' == Posted(b, kept, x)
  {
  }

  lemma GrowsMore(b: Books, b': Books, b'': Books)
    requires Grows(b, b') && Backed(b.acked, b') && Grows(b', b'') && Backed(b'.acked, b'')
    ensures Grows(b, b'') && Backed(b.acked, b'')
  {
    BackedMore(b.acked, b', b'');
  }

  /** Every version sent so far is settled. */
  ghost predicate SettledSoFar(x: Outcome, done: set<string>) {
    x.acked + x.refused == done && x.acked !! x.refused && x.dead <= x.acked <= x.dead + x.stored
  }

  lemma OneMoreSettled(x: Outcome, done: set<string>, y: Outcome, v: string, answer: Option<Error>)
    requires SettledSoFar(x, done) && v !in done && Decided(y, v, answer)
    ensures SettledSoFar(Both(x, y), done + {v})
  {
  }

  lemma HoldsParts(batches: map<string, SchemaBatch>, kept: seq<Processed>)
    requires Holds(batches, kept)
    ensures forall v :: v in batches ==> HoldsAt(batches[v], v, kept)
    ensures forall v, w :: v in batches && w in batches && v != w ==> batches[v].batch != batches[w].batch
    ensures Versions(kept) <= batches.Keys
  {
  }

  lemma EmptyFlush(books: Books, configs: map<string, Config>, mapper: Mapper)
    ensures var a := Assemble([], {});
      && AllFit([], [], configs, mapper) && Exact([], configs, mapper)
      && Settles(AllStored({}), a.kept) && Posted(Opened(books, a), a.kept, AllStored({})) == books
      && Versions(a.kept) == {}
  {
  }

  lemma BackedStill(ps: seq<Processed>, before: set<Msg>, b: Books, b': Books)
    requires NoSilentTwins(ps) ==> Backed(before, b)
    requires Grows(b, b') && (b'.acked == b.acked || Backed(b.acked, b'))
    ensures NoSilentTwins(ps) ==> Backed(before, b')
  {
    hide NoSilentTwins;
    if NoSilentTwins(ps) {
      BackedMore(before, b, b');
    }
  }

  /** In a batch without two deliveries of one message nothing repeats, so nothing is
    * acknowledged early and nothing can be lost. */
  lemma NothingRepeats(messages: seq<Msg>, ps: seq<Processed>, configs: map<string, Config>, mapper: Mapper)
    requires AllFit(messages, ps, configs, mapper)
    requires forall i, j :: 0 <= i < j < |messages| ==> !SameMessage(messages[i], messages[j])
    ensures Repeats(ps) == {} && NoSilentTwins(ps)
  {
    forall i, j | 0 <= i < j < |ps| ensures !Twins(ps[i], ps[j]) {
      assert Fits(messages[i], ps[i], configs, mapper) && Fits(messages[j], ps[j], configs, mapper);
      assert !SameMessage(messages[i], messages[j]);
    }
  }

  lemma FailedAreRepeats(ps: seq<Processed>, refused: set<nat>, dead: set<Msg>)
    requires MsgSet(Assemble(ps, refused).buried) <= dead
    ensures forall m :: m in Assemble(ps, refused).failed && m !in dead ==> m in Repeats(ps)
  {
    forall m | m in Assemble(ps, refused).failed && m !in dead ensures m in Repeats(ps) {
      FailedIsAccounted(ps, refused, m);
      var i, j :| 0 <= i < j < |ps| && Twins(ps[i], ps[j]) && ps[j].msg == m;
      assert ps[j].msg in Repeats(ps);
    }
  }

  lemma SameBatches(batches: map<string, SchemaBatch>, batches': map<string, SchemaBatch>, v: string)
    requires v in batches && batches'.Keys == batches.Keys && batches'[v].batch == batches[v].batch
    requires forall w :: w in batches && w != v ==> batches'[w] == batches[w]
    ensures Drivers(batches') == Drivers(batches)
  {
    assert forall w :: w in batches ==> batches'[w].batch == batches[w].batch;
  }

  lemma AppendedAt(appended: map<string, seq<Processed>>, kept: seq<Processed>, v: string)
    requires AppendedAre(appended, kept)
    ensures OfVersion(kept, v) == if v in appended then appended[v] else []
  {
  }
}
