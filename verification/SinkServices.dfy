/** What the sink talks to: ClickHouse, the dead-letter stream and the acknowledgements. */
module SinkServices {
  import opened Settlement
  import opened SinkModel
  import opened Wrappers

  datatype Classification = Retryable | Permanent | Unknown
  datatype Error = Error(class_: Classification)
  datatype AppendResult = Appended | AlreadyExists | Refused(err: Error)

  /** ClickHouse, the dead-letter stream and the acknowledgements, with what they were told.
    * `premature` records each message whose acknowledgement was requested before its row
    * was stored or its copy dead-lettered. */
  class Outside {
    ghost var stored: set<(string, Processed)>
    ghost var dead: set<Msg>
    ghost var acked: set<Msg>
    ghost var refused: set<Msg>
    ghost var premature: set<Msg>
    /** Some call failed. */
    ghost var disturbed: bool
    /** How many dead-letter pushes and acknowledgements failed. */
    ghost var failures: nat
    /** How many driver batches could not be made, and how many appends were refused. */
    ghost var unmade: nat
    ghost var refusals: nat
    /** The schema versions whose configuration could not be read at some time. */
    ghost var down: set<string>

    constructor ()
      ensures stored == {} && dead == acked == refused == premature == {} && !disturbed
      ensures failures == unmade == refusals == 0 && down == {}
    {
      stored, dead, acked, refused, premature, disturbed := {}, {}, {}, {}, {}, false;
      failures, unmade, refusals, down := 0, 0, 0, {};
    }

    ghost method Disturb()
      modifies this`disturbed
      ensures disturbed
    {
      disturbed := true;
    }

    ghost method RefuseBatch()
      modifies this`unmade, this`disturbed
      ensures disturbed && unmade == old(unmade) + 1
    {
      disturbed, unmade := true, unmade + 1;
    }

    ghost method RefuseConfig(version: string)
      modifies this`down, this`disturbed
      ensures disturbed && down == old(down) + {version}
    {
      disturbed, down := true, down + {version};
    }

    ghost method RefuseRow()
      modifies this`refusals, this`disturbed
      ensures disturbed && refusals == old(refusals) + 1
    {
      disturbed, refusals := true, refusals + 1;
    }

    ghost function Entries(): Books
      reads this`stored, this`dead, this`acked, this`refused
    {
      Books(stored, dead, acked, refused)
    }

    /** Some row made from the message is in ClickHouse. */
    ghost predicate Landed(m: Msg)
      reads this`stored
    {
      exists x :: x in stored && x.1.msg == m
    }

    ghost predicate Settled(m: Msg)
      reads this`stored, this`dead
    {
      Landed(m) || m in dead
    }

    ghost predicate Answered(m: Msg)
      reads this`acked, this`refused
    {
      m in acked || m in refused
    }

    method PushToDlq(m: Msg) returns (err: Option<Error>)
      modifies this`dead, this`disturbed, this`failures
      ensures failures == old(failures) + (if err.None? then 0 else 1)
      ensures err.None? ==> dead == old(dead) + {m} && disturbed == old(disturbed)
      ensures err.Some? ==> dead == old(dead) && disturbed
    {
      err := *;
      if err.None? {
        dead := dead + {m};
      } else {
        failures := failures + 1;
        Disturb();
      }
    }

    /** One acknowledgement with up to three attempts. */
    method Ack(m: Msg) returns (err: Option<Error>)
      modifies this`acked, this`premature, this`disturbed, this`failures
      ensures failures == old(failures) + (if err.None? then 0 else 1)
      ensures premature == old(premature) + (if Settled(m) then {} else {m})
      ensures acked == old(acked) + (if err.None? then {m} else {})
      ensures disturbed == (old(disturbed) || err.Some?)
    {
      ghost var was := premature;
      err := *;
      for attempt := 0 to 3
        invariant acked == old(acked) && disturbed == old(disturbed) && failures == old(failures)
        invariant premature == was || premature == was + (if Settled(m) then {} else {m})
        invariant attempt > 0 ==> err.Some? && premature == was + (if Settled(m) then {} else {m})
      {
        premature := if Settled(m) then premature else premature + {m};
        err := *;
        if err.None? {
          acked := acked + {m};
          return;
        }
      }
      failures := failures + 1;
      Disturb();
    }

    /** A failed Nak is only logged: the message comes back after its ack wait. */
    method Nak(m: Msg)
      modifies this`refused
      ensures refused == old(refused) + {m}
    {
      refused := refused + {m};
    }
  }
}
