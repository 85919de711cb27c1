/** What the sink's batch assembly computes, as functions on values: the row a message maps
  * to, and which rows, refusals and duplicates a batch of messages is split into. */
module SinkModel {
  import opened Wrappers

  type Bytes = seq<bv8>
  type Row = seq<Option<string>>
  datatype Config = Config(columns: seq<string>)

  /** One delivery of a stream message; its metadata, hence its sequence, may be unreadable. */
  datatype Msg = Msg(delivery: nat, sequence: Option<nat>, version: string, data: Bytes)

  datatype Processed = Ready(msg: Msg, id: nat, row: Row) | Bad(msg: Msg)

  type Mapper = (Bytes, string, Config) -> Option<Row>

  function Prepared(m: Msg, configs: map<string, Config>, mapper: Mapper): Processed {
    if m.sequence.None? || m.version == "" || m.version !in configs then Bad(m)
    else match mapper(m.data, m.version, configs[m.version])
      case Some(row) => Ready(m, m.sequence.value, row)
      case None => Bad(m)
  }

  /** A row is the mapper's answer on the data of its message, under the configuration of the
    * message's version, with the stream sequence of the message as its id. */
  ghost predicate Mapped(version: string, p: Processed, configs: map<string, Config>, mapper: Mapper) {
    && p.Ready? && p.msg.version == version && p.msg.sequence == Some(p.id)
    && version in configs && mapper(p.msg.data, version, configs[version]) == Some(p.row)
  }

  ghost predicate AllMapped(before: set<(string, Processed)>, after: set<(string, Processed)>,
                            configs: map<string, Config>, mapper: Mapper) {
    forall x :: x in after ==> x in before || Mapped(x.0, x.1, configs, mapper)
  }

  /** A message has a row exactly when its sequence and version are known, the version is
    * configured and the mapper has an answer; the row is that answer. */
  lemma PreparedMeans(m: Msg, configs: map<string, Config>, mapper: Mapper)
    ensures Prepared(m, configs, mapper).msg == m
    ensures Prepared(m, configs, mapper).Ready? <==>
      m.sequence.Some? && m.version != "" && m.version in configs && mapper(m.data, m.version, configs[m.version]).Some?
    ensures Prepared(m, configs, mapper).Ready? ==> Mapped(m.version, Prepared(m, configs, mapper), configs, mapper)
  {
  }

  /** A worker's verdict: what the configuration says, unless the lookup itself failed. */
  ghost predicate Fits(m: Msg, p: Processed, configs: map<string, Config>, mapper: Mapper) {
    p == Prepared(m, configs, mapper) || p == Bad(m)
  }

  ghost predicate AllFit(ms: seq<Msg>, ps: seq<Processed>, configs: map<string, Config>, mapper: Mapper) {
    |ps| == |ms| && forall i :: 0 <= i < |ms| ==> Fits(ms[i], ps[i], configs, mapper)
  }

  /** No verdict was spoilt by an outage. */
  ghost predicate Exact(ps: seq<Processed>, configs: map<string, Config>, mapper: Mapper) {
    forall i :: 0 <= i < |ps| ==> ps[i] == Prepared(ps[i].msg, configs, mapper)
  }

  ghost predicate Twins(p: Processed, q: Processed) {
    p.Ready? && q.Ready? && p.msg.version == q.msg.version && p.id == q.id
  }

  ghost predicate TwinIn(kept: seq<Processed>, p: Processed) {
    exists i :: 0 <= i < |kept| && Twins(kept[i], p)
  }

  ghost predicate NoTwins(ps: seq<Processed>) {
    forall i, j :: 0 <= i < j < |ps| ==> !Twins(ps[i], ps[j])
  }

  /** `kept` reached a schema batch, `failed` is what is acknowledged before anything is
    * sent, and `buried` is the part of `failed` that went to the dead-letter stream. */
  datatype Assembly = Assembly(kept: seq<Processed>, failed: seq<Msg>, buried: seq<Msg>)

  /** One message after the others, when `refused` are the positions whose append fails. */
  ghost function Assemble(ps: seq<Processed>, refused: set<nat>): Assembly {
    if ps == [] then Assembly([], [], [])
    else
      var n := |ps| - 1;
      var a, p := Assemble(ps[..n], refused), ps[n];
      if p.Bad? then a.(failed := a.failed + [p.msg], buried := a.buried + [p.msg])
      else if TwinIn(a.kept, p) then a.(failed := a.failed + [p.msg])
      else if n in refused then a.(failed := a.failed + [p.msg], buried := a.buried + [p.msg])
      else a.(kept := a.kept + [p])
  }

  ghost function OfVersion(ps: seq<Processed>, v: string): (r: seq<Processed>)
    ensures forall i :: 0 <= i < |r| ==> r[i] in ps && r[i].msg.version == v
  {
    if ps == [] then []
    else
      var r, p := OfVersion(ps[..|ps| - 1], v), ps[|ps| - 1];
      if p.msg.version == v then r + [p] else r
  }

  ghost function Msgs(ps: seq<Processed>): (ms: seq<Msg>)
    ensures |ms| == |ps| && forall i :: 0 <= i < |ps| ==> ms[i] == ps[i].msg
  {
    seq(|ps|, i requires 0 <= i < |ps| => ps[i].msg)
  }

  lemma {:induction false} OfVersionHolds(ps: seq<Processed>, v: string, p: Processed)
    requires p in ps && p.msg.version == v
    ensures p in OfVersion(ps, v)
  {
    var n := |ps| - 1;
    if ps[n] != p {
      assert p in ps[..n];
      OfVersionHolds(ps[..n], v, p);
    }
  }

  lemma OfVersionAppend(ps: seq<Processed>, v: string, p: Processed)
    ensures OfVersion(ps + [p], v) == if p.msg.version == v then OfVersion(ps, v) + [p] else OfVersion(ps, v)
  {
    assert (ps + [p])[..|ps|] == ps;
  }

  /** A step of the assembly loop. */
  lemma AssembleNext(ps: seq<Processed>, refused: set<nat>, i: nat)
    requires i < |ps|
    ensures Assemble(ps[..i + 1], refused) == (
      var a, p := Assemble(ps[..i], refused), ps[i];
      if p.Bad? then a.(failed := a.failed + [p.msg], buried := a.buried + [p.msg])
      else if TwinIn(a.kept, p) then a.(failed := a.failed + [p.msg])
      else if i in refused then a.(failed := a.failed + [p.msg], buried := a.buried + [p.msg])
      else a.(kept := a.kept + [p]))
  {
    assert ps[..i + 1][..i] == ps[..i] && ps[..i + 1][i] == ps[i];
  }

  /** The verdict on a position does not depend on later refusals. */
  lemma {:induction false} LaterRefusals(ps: seq<Processed>, refused: set<nat>, more: set<nat>)
    requires forall k :: k in more ==> k >= |ps|
    ensures Assemble(ps, refused + more) == Assemble(ps, refused)
  {
    if ps != [] {
      LaterRefusals(ps[..|ps| - 1], refused, more);
    }
  }

  /** Whatever is kept is Ready, comes from the batch, and no two are twins. */
  lemma {:induction false} KeptIsSound(ps: seq<Processed>, refused: set<nat>)
    ensures var kept := Assemble(ps, refused).kept;
      && NoTwins(kept)
      && forall i :: 0 <= i < |kept| ==> kept[i].Ready? && kept[i] in ps
  {
    if ps != [] {
      KeptIsSound(ps[..|ps| - 1], refused);
    }
  }

  /** Every message is kept exactly once or failed exactly once. */
  lemma {:induction false} Conserved(ps: seq<Processed>, refused: set<nat>)
    ensures var a := Assemble(ps, refused);
      multiset(Msgs(ps)) == multiset(Msgs(a.kept)) + multiset(a.failed)
  {
    if ps != [] {
      var n := |ps| - 1;
      Conserved(ps[..n], refused);
      assert Msgs(ps) == Msgs(ps[..n]) + [ps[n].msg];
      var kept := Assemble(ps[..n], refused).kept;
      assert Msgs(kept + [ps[n]]) == Msgs(kept) + [ps[n].msg];
    }
  }

  /** A failed message was dead-lettered or repeats one before it. */
  lemma {:induction false} FailedIsAccounted(ps: seq<Processed>, refused: set<nat>, m: Msg)
    requires m in Assemble(ps, refused).failed
    ensures m in Assemble(ps, refused).buried
      || exists i, j :: 0 <= i < j < |ps| && Twins(ps[i], ps[j]) && ps[j].msg == m
  {
    var n := |ps| - 1;
    var a := Assemble(ps[..n], refused);
    if m in a.failed {
      FailedIsAccounted(ps[..n], refused, m);
      if m !in a.buried {
        var i, j :| 0 <= i < j < n && Twins(ps[..n][i], ps[..n][j]) && ps[..n][j].msg == m;
        assert Twins(ps[i], ps[j]);
      }
    } else if ps[n].Ready? && TwinIn(a.kept, ps[n]) {
      KeptIsSound(ps[..n], refused);
      var k :| 0 <= k < |a.kept| && Twins(a.kept[k], ps[n]);
      var i :| 0 <= i < n && ps[i] == a.kept[k];
      assert Twins(ps[i], ps[n]);
    }
  }

  lemma {:induction false} BuriedIsFailed(ps: seq<Processed>, refused: set<nat>)
    ensures var a := Assemble(ps, refused); |a.buried| <= |a.failed| && forall m :: m in a.buried ==> m in a.failed
  {
    if ps != [] {
      BuriedIsFailed(ps[..|ps| - 1], refused);
    }
  }

  /** With no append refused, a Ready message is kept or repeats one that was. */
  lemma {:induction false} KeptOrTwin(ps: seq<Processed>, i: nat)
    requires i < |ps| && ps[i].Ready?
    ensures TwinIn(Assemble(ps, {}).kept, ps[i])
  {
    var n := |ps| - 1;
    var before, after := Assemble(ps[..n], {}).kept, Assemble(ps, {}).kept;
    if i < n {
      KeptOrTwin(ps[..n], i);
      var k :| 0 <= k < |before| && Twins(before[k], ps[..n][i]);
      assert after[k] == before[k];
      assert Twins(after[k], ps[i]);
    } else if !TwinIn(before, ps[n]) {
      assert after == before + [ps[n]];
      assert Twins(after[|before|], ps[n]);
    }
  }

  lemma {:induction false} TwinsFailUnburied(ps: seq<Processed>, i: nat, j: nat)
    requires i < j < |ps| && Twins(ps[i], ps[j])
    ensures var a := Assemble(ps, {}); |a.buried| < |a.failed|
  {
    var n := |ps| - 1;
    if j < n {
      assert Twins(ps[..n][i], ps[..n][j]);
      TwinsFailUnburied(ps[..n], i, j);
    } else {
      var kept := Assemble(ps[..n], {}).kept;
      KeptOrTwin(ps[..n], i);
      var k :| 0 <= k < |kept| && Twins(kept[k], ps[..n][i]);
      assert Twins(kept[k], ps[n]);
      BuriedIsFailed(ps[..n], {});
    }
  }

  lemma {:induction false} NoTwinsMeansBuried(ps: seq<Processed>, refused: set<nat>)
    requires NoTwins(ps)
    ensures var a := Assemble(ps, refused); a.buried == a.failed
  {
    if ps != [] {
      var n := |ps| - 1;
      assert forall i, j :: 0 <= i < j < n ==> Twins(ps[..n][i], ps[..n][j]) == Twins(ps[i], ps[j]);
      NoTwinsMeansBuried(ps[..n], refused);
      KeptIsSound(ps[..n], refused);
      var kept := Assemble(ps[..n], refused).kept;
      forall k | 0 <= k < |kept| ensures !Twins(kept[k], ps[n]) {
        var i :| 0 <= i < n && ps[i] == kept[k];
        assert !Twins(ps[i], ps[n]);
      }
    }
  }

  ghost predicate AllBuried(ps: seq<Processed>, refused: set<nat>) {
    Assemble(ps, refused).buried == Assemble(ps, refused).failed
  }

  /** What is acknowledged ahead of the send is always in the dead-letter stream exactly
    * when no two mapped messages of the batch share a stream sequence and a schema. */
  lemma EarlyAcksAreSafeIff(ps: seq<Processed>)
    ensures (forall refused: set<nat> :: AllBuried(ps, refused)) <==> NoTwins(ps)
  {
    if NoTwins(ps) {
      forall refused: set<nat> ensures AllBuried(ps, refused) {
        NoTwinsMeansBuried(ps, refused);
      }
    } else {
      var i, j :| 0 <= i < j < |ps| && Twins(ps[i], ps[j]);
      TwinsFailUnburied(ps, i, j);
      assert !AllBuried(ps, {});
    }
  }

  ghost predicate DiffersByOne(with: seq<Processed>, without: seq<Processed>, p: Processed) {
    exists k :: 0 <= k < |with| && with[k] == p && without == with[..k] + with[k + 1..]
  }

  lemma DiffersAtEnd(ps: seq<Processed>, p: Processed)
    ensures DiffersByOne(ps + [p], ps, p)
  {
    var all := ps + [p];
    assert all[|ps|] == p && ps == all[..|ps|] + all[|ps| + 1..];
  }

  lemma DiffersBefore(with: seq<Processed>, without: seq<Processed>, p: Processed, q: Processed)
    requires DiffersByOne(with, without, p)
    ensures DiffersByOne(with + [q], without + [q], p)
  {
    var k :| 0 <= k < |with| && with[k] == p && without == with[..k] + with[k + 1..];
    var all := with + [q];
    assert all[k] == p && without + [q] == all[..k] + all[k + 1..];
  }

  lemma NoTwinsBefore(ps: seq<Processed>)
    requires NoTwins(ps) && ps != []
    ensures NoTwins(ps[..|ps| - 1])
  {
    var init := ps[..|ps| - 1];
    assert forall a, b :: 0 <= a < b < |init| ==> Twins(init[a], init[b]) == Twins(ps[a], ps[b]);
  }

  /** One more refused append drops that one message and keeps the order of all others. */
  lemma {:induction false} OneRefusalDropsOneRow(ps: seq<Processed>, refused: set<nat>, i: nat)
    requires NoTwins(ps) && i < |ps| && ps[i].Ready? && i !in refused
    ensures DiffersByOne(Assemble(ps, refused).kept, Assemble(ps, refused + {i}).kept, ps[i])
    ensures multiset(Assemble(ps, refused + {i}).failed) == multiset(Assemble(ps, refused).failed) + multiset{ps[i].msg}
  {
    hide DiffersByOne, NoTwins, TwinIn;
    var n := |ps| - 1;
    NotATwin(ps, refused);
    NotATwin(ps, refused + {i});
    var with, without := Assemble(ps[..n], refused), Assemble(ps[..n], refused + {i});
    if i == n {
      LaterRefusals(ps[..n], refused, {i});
      DiffersAtEnd(with.kept, ps[n]);
    } else {
      NoTwinsBefore(ps);
      OneRefusalDropsOneRow(ps[..n], refused, i);
      DiffersBefore(with.kept, without.kept, ps[i], ps[n]);
    }
  }

  lemma NotATwin(ps: seq<Processed>, refused: set<nat>)
    requires NoTwins(ps) && ps != []
    ensures !TwinIn(Assemble(ps[..|ps| - 1], refused).kept, ps[|ps| - 1])
  {
    var n := |ps| - 1;
    KeptIsSound(ps[..n], refused);
    var kept := Assemble(ps[..n], refused).kept;
    forall k | 0 <= k < |kept| ensures !Twins(kept[k], ps[n]) {
      var i :| 0 <= i < n && ps[i] == kept[k];
      assert !Twins(ps[i], ps[n]);
    }
  }
}
