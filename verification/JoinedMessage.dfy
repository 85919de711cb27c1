/** How the payload of a joined message is put together: each side is projected by its rules
  * from source fields to output fields, and the right side wins where both name an output. */
module JoinedMessage {
  import opened Json
  import opened Wrappers

  type Row = map<string, Value>

  /** The rules of one source, from its field names to output names. */
  type Rules = map<string, string>

  ghost predicate HasFields(rules: Rules, parsed: Row) {
    forall s :: s in rules ==> s in parsed
  }

  ghost predicate Named(rules: Rules, o: string) {
    exists s :: s in rules && rules[s] == o
  }

  /** What a projection may be, in whichever order the rules were applied. */
  ghost predicate Projects(rules: Rules, parsed: Row, row: Row)
    requires HasFields(rules, parsed)
  {
    && (forall o :: o in row ==> exists s :: s in rules && rules[s] == o && row[o] == parsed[s])
    && (forall s :: s in rules ==> rules[s] in row)
  }

  /** Rules that send two fields to one output must find the same value in both. */
  ghost predicate Unambiguous(rules: Rules, parsed: Row)
    requires HasFields(rules, parsed)
  {
    forall s, t :: s in rules && t in rules && rules[s] == rules[t] ==> parsed[s] == parsed[t]
  }

  method PrepareData(rules: Rules, parsed: Row) returns (r: Option<Row>)
    ensures r.Some? <==> HasFields(rules, parsed)
    ensures r.Some? ==> Projects(rules, parsed, r.value)
  {
    var row: Row, todo := map[], rules.Keys;
    while todo != {}
      invariant todo <= rules.Keys
      invariant forall s :: s in rules && s !in todo ==> s in parsed && rules[s] in row
      invariant forall o :: o in row ==> exists s :: s in rules && s in parsed && rules[s] == o && row[o] == parsed[s]
      decreases |todo|
    {
      var s :| s in todo;
      if s !in parsed {
        return None;
      }
      row, todo := row[rules[s] := parsed[s]], todo - {s};
    }
    return Some(row);
  }

  method JoinData(left: Row, right: Row) returns (r: Row)
    ensures forall o :: o in r <==> o in left || o in right
    ensures forall o :: o in r ==> r[o] == if o in right then right[o] else left[o]
  {
    r := left + right;
  }

  /** The projection applied to the rules in one order, for a given last rule of an output. */
  ghost function Choose(rules: Rules, parsed: Row, last: string): (row: Row)
    requires HasFields(rules, parsed) && last in rules
    ensures Projects(rules, parsed, row) && row[rules[last]] == parsed[last]
  {
    var row := map o | o in rules.Values :: var s :| s in rules && rules[s] == o; parsed[s];
    assert forall s :: s in rules ==> rules[s] in rules.Values;
    row[rules[last] := parsed[last]]
  }

  /** The order in which Go ranges over the rules is irrelevant exactly when no two rules
    * bring different values to one output. */
  lemma OrderIrrelevantIff(rules: Rules, parsed: Row)
    requires HasFields(rules, parsed)
    ensures (forall a: Row, b: Row :: Projects(rules, parsed, a) && Projects(rules, parsed, b) ==> a == b) <==>
      Unambiguous(rules, parsed)
  {
    if Unambiguous(rules, parsed) {
      forall a: Row, b: Row | Projects(rules, parsed, a) && Projects(rules, parsed, b) ensures a == b {
        SameKeys(rules, parsed, a, b);
      }
    } else {
      var s, t :| s in rules && t in rules && rules[s] == rules[t] && parsed[s] != parsed[t];
      var a, b := Choose(rules, parsed, s), Choose(rules, parsed, t);
      assert a[rules[s]] != b[rules[s]];
    }
  }

  lemma SameKeys(rules: Rules, parsed: Row, a: Row, b: Row)
    requires HasFields(rules, parsed) && Unambiguous(rules, parsed) && Projects(rules, parsed, a) &&
      Projects(rules, parsed, b)
    ensures a == b
  {
    assert a.Keys == b.Keys;
    forall o | o in a ensures a[o] == b[o] {
      var s :| s in rules && rules[s] == o && a[o] == parsed[s];
      var t :| t in rules && rules[t] == o && b[o] == parsed[t];
    }
  }

  /** Every output of the right side carries the right side's value, every other output of
    * the left side the left side's, and there are no further fields. */
  method BuildJoinedMessage(leftRules: Rules, left: Row, rightRules: Rules, right: Row) returns (r: Option<Row>)
    ensures r.Some? <==> HasFields(leftRules, left) && HasFields(rightRules, right)
    ensures r.Some? ==> forall o :: o in r.value <==> Named(leftRules, o) || Named(rightRules, o)
    ensures r.Some? ==>
      forall s :: s in rightRules && Unambiguous(rightRules, right) ==>
        rightRules[s] in r.value && r.value[rightRules[s]] == right[s]
    ensures r.Some? ==>
      forall s :: s in leftRules && Unambiguous(leftRules, left) && !Named(rightRules, leftRules[s]) ==>
      leftRules[s] in r.value && r.value[leftRules[s]] == left[s]
  {
    var l := PrepareData(leftRules, left);
    if l.None? {
      return None;
    }
    var p := PrepareData(rightRules, right);
    if p.None? {
      return None;
    }
    var row := JoinData(l.value, p.value);
    forall o ensures o in row <==> Named(leftRules, o) || Named(rightRules, o) {
    }
    return Some(row);
  }
}
