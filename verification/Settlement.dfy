/** How a flush settles its messages once the schema batches were sent, on values, and when
  * that may lose a message. */
module Settlement {
  import opened SinkModel
  import opened Wrappers

  ghost function MsgSet(ms: seq<Msg>): set<Msg> {
    set m | m in ms
  }

  /** The schema versions whose messages were acknowledged, refused for redelivery and
    * dead-lettered, and those whose rows were stored. */
  datatype Outcome = Outcome(acked: set<string>, refused: set<string>, dead: set<string>, stored: set<string>)

  /** Every version with rows is acknowledged or refused, and acknowledged only after its rows
    * were stored or its messages dead-lettered. A refused version may have been stored too. */
  ghost predicate Settles(x: Outcome, kept: seq<Processed>) {
    Versions(kept) <= x.acked + x.refused && x.acked !! x.refused && x.dead <= x.acked <= x.dead + x.stored
  }

  ghost function Versions(kept: seq<Processed>): set<string> {
    set p | p in kept :: p.msg.version
  }

  ghost function MsgsIn(kept: seq<Processed>, versions: set<string>): set<Msg> {
    set p | p in kept && p.msg.version in versions :: p.msg
  }

  /** The rows of some versions, each under its version. */
  ghost function RowsIn(kept: seq<Processed>, versions: set<string>): set<(string, Processed)> {
    set p | p in kept && p.msg.version in versions :: (p.msg.version, p)
  }

  ghost function Landing(version: string, rows: seq<Processed>): set<(string, Processed)> {
    set p | p in rows :: (version, p)
  }

  lemma InVersion(kept: seq<Processed>, v: string)
    ensures forall p :: p in OfVersion(kept, v) <==> p in kept && p.msg.version == v
  {
    var rows := OfVersion(kept, v);
    forall p | p in kept && p.msg.version == v ensures p in rows {
      OfVersionHolds(kept, v, p);
    }
    forall p | p in rows ensures p in kept && p.msg.version == v {
      var i :| 0 <= i < |rows| && rows[i] == p;
    }
  }

  /** One more version. */
  lemma OneMoreVersion(kept: seq<Processed>, versions: set<string>, v: string)
    ensures MsgsIn(kept, versions + {v}) == MsgsIn(kept, versions) + MsgSet(Msgs(OfVersion(kept, v)))
    ensures RowsIn(kept, versions + {v}) == RowsIn(kept, versions) + Landing(v, OfVersion(kept, v))
  {
    InVersion(kept, v);
    var rows := OfVersion(kept, v);
    forall m ensures m in MsgSet(Msgs(rows)) <==> exists p :: p in rows && p.msg == m {
      if m in MsgSet(Msgs(rows)) {
        var i :| 0 <= i < |Msgs(rows)| && Msgs(rows)[i] == m;
        assert rows[i] in rows;
      }
      if p :| p in rows && p.msg == m {
        var i :| 0 <= i < |rows| && rows[i] == p;
        assert Msgs(rows)[i] == m;
      }
    }
  }

  lemma NoVersions(kept: seq<Processed>)
    ensures MsgsIn(kept, {}) == {} && RowsIn(kept, {}) == {}
  {
  }

  lemma MsgSetAppend(ms: seq<Msg>, m: Msg)
    ensures MsgSet(ms + [m]) == MsgSet(ms) + {m}
  {
  }

  lemma MsgSetNext(ms: seq<Msg>, i: nat)
    requires i < |ms|
    ensures MsgSet(ms[..i + 1]) == MsgSet(ms[..i]) + {ms[i]} && MsgSet(ms[..i + 1]) <= MsgSet(ms)
  {
    assert ms[..i + 1] == ms[..i] + [ms[i]];
  }

  // ----- The books of a flush -----

  /** Two deliveries of one stream message. */
  predicate SameMessage(a: Msg, b: Msg) {
    a.sequence == b.sequence && a.version == b.version
  }

  /** What ClickHouse, the dead-letter stream and the source stream were told. */
  datatype Books = Books(stored: set<(string, Processed)>, dead: set<Msg>, acked: set<Msg>, refused: set<Msg>)

  ghost predicate Grows(b: Books, b': Books) {
    b.stored <= b'.stored && b.dead <= b'.dead && b.acked <= b'.acked && b.refused <= b'.refused
  }

  /** After the assembly: its failed messages are acknowledged, the buried ones dead-lettered. */
  ghost function Opened(b: Books, a: Assembly): Books {
    b.(dead := b.dead + MsgSet(a.buried), acked := b.acked + MsgSet(a.failed))
  }

  /** After the versions of `x` were sent and settled. */
  ghost function Posted(b: Books, kept: seq<Processed>, x: Outcome): Books {
    Books(b.stored + RowsIn(kept, x.stored), b.dead + MsgsIn(kept, x.dead),
          b.acked + MsgsIn(kept, x.acked), b.refused + MsgsIn(kept, x.refused))
  }

  function Both(x: Outcome, y: Outcome): Outcome {
    Outcome(x.acked + y.acked, x.refused + y.refused, x.dead + y.dead, x.stored + y.stored)
  }

  lemma PostedTwice(b: Books, kept: seq<Processed>, x: Outcome, y: Outcome)
    ensures Posted(Posted(b, kept, x), kept, y) == Posted(b, kept, Both(x, y))
  {
  }

  lemma PostedNothing(b: Books, kept: seq<Processed>)
    ensures Posted(b, kept, Outcome({}, {}, {}, {})) == b
  {
    NoVersions(kept);
  }

  /** When everything was stored and acknowledged. */
  function AllStored(versions: set<string>): Outcome {
    Outcome(versions, {}, {}, versions)
  }

  lemma PostedSmoothly(b: Books, kept: seq<Processed>, x: Outcome)
    requires Settles(x, kept) && x.refused == {} && x.dead == {}
    ensures Posted(b, kept, x) == Posted(b, kept, AllStored(Versions(kept)))
  {
    assert forall p :: p in kept ==> p.msg.version in Versions(kept);
  }

  /** After a flush without an error every message is acknowledged or refused. */
  lemma EverythingIsAnswered(messages: seq<Msg>, ps: seq<Processed>, refused: set<nat>, x: Outcome, b: Books,
                             configs: map<string, Config>, mapper: Mapper)
    requires AllFit(messages, ps, configs, mapper) && Settles(x, Assemble(ps, refused).kept)
    ensures var a := Assemble(ps, refused);
      var b' := Posted(Opened(b, a), a.kept, x);
      forall i :: 0 <= i < |messages| ==> messages[i] in b'.acked + b'.refused
  {
    hide Assemble, AllFit;
    var a := Assemble(ps, refused);
    forall i | 0 <= i < |messages|
      ensures messages[i] in Posted(Opened(b, a), a.kept, x).acked + Posted(Opened(b, a), a.kept, x).refused
    {
      KeptOrFailed(messages, ps, refused, configs, mapper, i);
      if messages[i] !in a.failed {
        var k :| 0 <= k < |a.kept| && a.kept[k].msg == messages[i];
        assert a.kept[k] in a.kept && a.kept[k].msg.version in Versions(a.kept);
      }
    }
  }

  lemma KeptOrFailed(messages: seq<Msg>, ps: seq<Processed>, refused: set<nat>, configs: map<string, Config>,
                     mapper: Mapper, i: nat)
    requires AllFit(messages, ps, configs, mapper) && i < |messages|
    ensures var a := Assemble(ps, refused);
      messages[i] in a.failed || exists k :: 0 <= k < |a.kept| && a.kept[k].msg == messages[i]
  {
    var a := Assemble(ps, refused);
    Conserved(ps, refused);
    assert Fits(messages[i], ps[i], configs, mapper) && Msgs(ps)[i] == messages[i];
    assert messages[i] in multiset(Msgs(ps));
    if messages[i] !in a.failed {
      assert messages[i] in Msgs(a.kept);
      var k :| 0 <= k < |a.kept| && Msgs(a.kept)[k] == messages[i];
    }
  }

  /** Some row made from the message is in ClickHouse, or a copy in the dead-letter stream. */
  ghost predicate Has(b: Books, m: Msg) {
    m in b.dead || exists x :: x in b.stored && x.1.msg == m
  }

  /** Some delivery of the message is in ClickHouse or in the dead-letter stream. */
  ghost predicate Safe(b: Books, m: Msg) {
    exists m' :: SameMessage(m, m') && Has(b, m')
  }

  /** What was acknowledged since `before` is safe. */
  ghost predicate Backed(before: set<Msg>, b: Books) {
    forall m :: m in b.acked ==> m in before || Safe(b, m)
  }

  lemma StaysSafe(b: Books, b': Books, m: Msg)
    requires Grows(b, b') && Safe(b, m)
    ensures Safe(b', m)
  {
    var m' :| SameMessage(m, m') && Has(b, m');
    assert Has(b', m');
  }

  lemma BackedMore(before: set<Msg>, b: Books, b': Books)
    requires Backed(before, b) && Backed(b.acked, b') && Grows(b, b')
    ensures Backed(before, b')
  {
    forall m | m in b'.acked ensures m in before || Safe(b', m) {
      if m in b.acked && m !in before {
        StaysSafe(b, b', m);
      }
    }
  }

  lemma NothingAcked(b: Books)
    ensures Backed(b.acked, b)
  {
  }

  lemma HadIsSafe(before: set<Msg>, b: Books)
    requires forall m :: m in b.acked ==> m in before || Has(b, m)
    ensures Backed(before, b)
  {
    forall m | m in b.acked ensures m in before || Safe(b, m) {
      assert SameMessage(m, m);
    }
  }

  // ----- Losing a message -----

  ghost predicate AckedBy(a: Assembly, x: Outcome, m: Msg) {
    m in a.failed || m in MsgsIn(a.kept, x.acked)
  }

  ghost predicate Saved(a: Assembly, x: Outcome, m: Msg) {
    m in a.buried || m in MsgsIn(a.kept, x.dead) || m in MsgsIn(a.kept, x.stored)
  }

  /** A delivery was acknowledged although no delivery of its message was stored or
    * dead-lettered: the stream drops the message and nobody has it. */
  ghost predicate Lost(ps: seq<Processed>, refused: set<nat>, x: Outcome, m: Msg) {
    var a := Assemble(ps, refused);
    && Settles(x, a.kept) && AckedBy(a, x, m)
    && forall m' :: SameMessage(m, m') ==> !Saved(a, x, m')
  }

  /** A message was mapped twice, and no delivery of it failed to map. */
  ghost predicate SilentTwins(ps: seq<Processed>, i: nat, j: nat) {
    && i < j < |ps| && Twins(ps[i], ps[j])
    && forall k :: 0 <= k < |ps| && ps[k].Bad? ==> !SameMessage(ps[k].msg, ps[j].msg)
  }

  lemma {:induction false} BadIsBuried(ps: seq<Processed>, refused: set<nat>, k: nat)
    requires k < |ps| && ps[k].Bad?
    ensures ps[k].msg in Assemble(ps, refused).buried
  {
    var n := |ps| - 1;
    if k < n {
      BadIsBuried(ps[..n], refused, k);
    }
  }

  lemma {:induction false} BuriedIsBad(ps: seq<Processed>, m: Msg)
    requires m in Assemble(ps, {}).buried
    ensures exists k :: 0 <= k < |ps| && ps[k].Bad? && ps[k].msg == m
  {
    var n := |ps| - 1;
    if m in Assemble(ps[..n], {}).buried {
      BuriedIsBad(ps[..n], m);
      var k :| 0 <= k < n && ps[..n][k].Bad? && ps[..n][k].msg == m;
      assert ps[k] == ps[..n][k];
    }
  }

  /** With no append refused the second of two twins is acknowledged at once. */
  lemma {:induction false} TwinIsFailed(ps: seq<Processed>, i: nat, j: nat)
    requires i < j < |ps| && Twins(ps[i], ps[j])
    ensures ps[j].msg in Assemble(ps, {}).failed
  {
    var n := |ps| - 1;
    if j < n {
      assert Twins(ps[..n][i], ps[..n][j]);
      TwinIsFailed(ps[..n], i, j);
    } else {
      var kept := Assemble(ps[..n], {}).kept;
      KeptOrTwin(ps[..n], i);
      var k :| 0 <= k < |kept| && Twins(kept[k], ps[..n][i]);
      assert Twins(kept[k], ps[n]);
    }
  }

  /** If every send is refused for now, the second twin is acknowledged and nobody has it. */
  lemma SilentTwinIsLost(ps: seq<Processed>, i: nat, j: nat)
    requires SilentTwins(ps, i, j)
    ensures Lost(ps, {}, Outcome({}, Versions(Assemble(ps, {}).kept), {}, {}), ps[j].msg)
  {
    var a := Assemble(ps, {});
    TwinIsFailed(ps, i, j);
    NoVersions(a.kept);
    forall m' | SameMessage(ps[j].msg, m') ensures m' !in a.buried {
      if m' in a.buried {
        BuriedIsBad(ps, m');
      }
    }
  }

  ghost predicate NoSilentTwins(ps: seq<Processed>) {
    forall i, j :: !SilentTwins(ps, i, j)
  }

  /** Without silent twins a delivery that fails is dead-lettered, or a sibling of it is. */
  lemma FailedIsSafe(ps: seq<Processed>, refused: set<nat>, m: Msg)
    requires NoSilentTwins(ps) && m in Assemble(ps, refused).failed
    ensures exists m' :: m' in Assemble(ps, refused).buried && SameMessage(m, m')
  {
    hide Assemble, Twins;
    FailedIsAccounted(ps, refused, m);
    if m in Assemble(ps, refused).buried {
      assert SameMessage(m, m);
    } else {
      var i, j :| 0 <= i < j < |ps| && Twins(ps[i], ps[j]) && ps[j].msg == m;
      assert !SilentTwins(ps, i, j);
      var k :| 0 <= k < |ps| && ps[k].Bad? && SameMessage(ps[k].msg, ps[j].msg);
      BadIsBuried(ps, refused, k);
      assert SameMessage(m, ps[k].msg);
    }
  }

  /** Acknowledging only failed messages, once the buried ones are dead-lettered. */
  lemma FailedAreBacked(ps: seq<Processed>, refused: set<nat>, before: set<Msg>, b: Books)
    requires var a := Assemble(ps, refused); b.acked <= before + MsgSet(a.failed) && MsgSet(a.buried) <= b.dead
    ensures NoSilentTwins(ps) ==> Backed(before, b)
  {
    hide Assemble, NoSilentTwins;
    var a := Assemble(ps, refused);
    forall m | NoSilentTwins(ps) && m in b.acked && m !in before ensures Safe(b, m) {
      FailedIsSafe(ps, refused, m);
      var m' :| m' in a.buried && SameMessage(m, m');
      assert m' in MsgSet(a.buried) && Has(b, m');
    }
  }

  lemma NotLost(ps: seq<Processed>, refused: set<nat>, x: Outcome, m: Msg)
    requires NoSilentTwins(ps)
    ensures !Lost(ps, refused, x, m)
  {
    var a := Assemble(ps, refused);
    hide Assemble, NoSilentTwins;
    assert SameMessage(m, m);
    if Settles(x, a.kept) && m in MsgsIn(a.kept, x.acked) {
      var p :| p in a.kept && p.msg.version in x.acked && p.msg == m;
      assert m in MsgsIn(a.kept, x.dead) || m in MsgsIn(a.kept, x.stored);
      assert Saved(a, x, m);
    } else if Settles(x, a.kept) && m in a.failed {
      FailedIsSafe(ps, refused, m);
      var m' :| m' in a.buried && SameMessage(m, m');
      assert Saved(a, x, m');
    }
  }

  /** A flush may lose a message, for some refusals and some answers of ClickHouse, exactly
    * when the message was mapped twice in the batch and no delivery of it failed to map. */
  lemma NothingIsLostIff(ps: seq<Processed>)
    ensures (forall refused, x, m :: !Lost(ps, refused, x, m)) <==> NoSilentTwins(ps)
  {
    if NoSilentTwins(ps) {
      forall refused, x, m ensures !Lost(ps, refused, x, m) {
        NotLost(ps, refused, x, m);
      }
    } else {
      var i, j :| SilentTwins(ps, i, j);
      SilentTwinIsLost(ps, i, j);
    }
  }

  /** The same on messages: two deliveries of one message that maps, in one batch. */
  lemma DeliveredTwiceMayBeLost(messages: seq<Msg>, ps: seq<Processed>, i: nat, j: nat, configs: map<string, Config>,
                                mapper: Mapper)
    requires AllFit(messages, ps, configs, mapper) && Exact(ps, configs, mapper)
    requires i < j < |messages| && SameMessage(messages[i], messages[j])
    requires forall k :: 0 <= k < |messages| && SameMessage(messages[k], messages[j]) ==>
      Prepared(messages[k], configs, mapper).Ready?
    ensures exists refused, x :: Lost(ps, refused, x, messages[j])
  {
    forall k | 0 <= k < |ps| ensures ps[k] == Prepared(messages[k], configs, mapper) && ps[k].msg == messages[k] {
      assert Fits(messages[k], ps[k], configs, mapper);
    }
    assert SilentTwins(ps, i, j);
    SilentTwinIsLost(ps, i, j);
  }
}
