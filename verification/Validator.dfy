/** The one-pass JSON validator: precomputed checks, one iteration over the members with an
  * early stop, and a fallback for dotted names, against the plain per-field check. */
module Validator {
  import opened Batches
  import opened Json
  import opened Texts
  import opened Wrappers

  datatype Field = Field(name: string, kind: string)

  datatype CheckType = IsNone | IsString | IsNumber | IsBool | IsArray | IsObject

  datatype FieldCheck = FieldCheck(name: string, checkType: CheckType)

  datatype Error = InvalidMessage | WrongType(name: string) | Missing(name: string)

  function NormalizeToBasicKafkaType(t: string): string {
    if t == "int8" || t == "int16" || t == "int32" || t == "int64" || t == "integer" then "int"
    else if t == "uint8" || t == "uint16" || t == "uint32" || t == "uint64" then "uint"
    else if t == "float32" || t == "float64" || t == "number" then "float"
    else if t == "bytes" then "string"
    else if t == "object" then "map"
    else if t == "boolean" then "bool"
    else t
  }

  function CheckTypeOf(kind: string): CheckType {
    var t := NormalizeToBasicKafkaType(kind);
    if t == "string" then IsString
    else if t == "int" || t == "uint" || t == "float" then IsNumber
    else if t == "bool" then IsBool
    else if t == "array" then IsArray
    else if t == "map" then IsObject
    else IsNone
  }

  predicate ValidateType(c: CheckType, v: Value) {
    match c
    case IsString => v.Text?
    case IsNumber => v.Number?
    case IsBool => v.Bool?
    case IsArray => v.Array?
    case IsObject => v.Object?
    case IsNone => true
  }

  /** The type of a JSON value; a null has none. */
  function TypeOf(v: Value): CheckType {
    match v
    case Null => IsNone
    case Bool(_) => IsBool
    case Number(_) => IsNumber
    case Text(_) => IsString
    case Array(_) => IsArray
    case Object(_) => IsObject
  }

  /** The kinds of fields that take values of a type. */
  ghost function Kinds(c: CheckType): set<string> {
    match c
    case IsNone => {}
    case IsBool => {"bool", "boolean"}
    case IsNumber => Integers() + Unsigned() + {"float", "float32", "float64", "number"}
    case IsString => {"string", "bytes"}
    case IsArray => {"array"}
    case IsObject => {"map", "object"}
  }

  ghost function Integers(): set<string> {
    {"int", "int8", "int16", "int32", "int64", "integer"}
  }

  ghost function Unsigned(): set<string> {
    {"uint", "uint8", "uint16", "uint32", "uint64"}
  }

  lemma KindMeans(kind: string)
    ensures forall c :: c != IsNone ==> (kind in Kinds(c) <==> CheckTypeOf(kind) == c)
  {
    var t := NormalizeToBasicKafkaType(kind);
    assert t == "int" <==> kind in Integers();
    assert t == "uint" <==> kind in Unsigned();
  }

  /** A field takes the values of the type of its kind and no others; a kind that belongs to no
    * type takes any. */
  lemma KindAccepts(kind: string, v: Value)
    ensures ValidateType(CheckTypeOf(kind), v) <==> kind in Kinds(TypeOf(v)) || forall c :: kind !in Kinds(c)
  {
    KindMeans(kind);
    assert kind !in Kinds(IsNone);
    hide CheckTypeOf, Kinds;
    var c := CheckTypeOf(kind);
    assert c != IsNone ==> kind in Kinds(c) && (ValidateType(c, v) <==> TypeOf(v) == c);
    assert c == IsNone ==> forall t :: t != IsNone ==> kind !in Kinds(t);
    assert kind in Kinds(TypeOf(v)) ==> TypeOf(v) == c;
  }

  ghost predicate DistinctNames(fields: seq<Field>) {
    forall i, j :: 0 <= i < j < |fields| ==> fields[i].name != fields[j].name
  }

  ghost function Names(fields: seq<Field>): set<string> {
    set i | 0 <= i < |fields| :: fields[i].name
  }

  // ----- The simple check -----

  predicate FieldOk(f: Field, v: Value) {
    FieldValue(v, f.name).Some? && ValidateType(CheckTypeOf(f.kind), FieldValue(v, f.name).value)
  }

  /** A message conforms when it is an object or array and every field is found, under its
    * literal key or else at its nested path, with the expected type. */
  predicate Conforms(fields: seq<Field>, v: Value) {
    (v.Object? || v.Array?) && forall i :: 0 <= i < |fields| ==> FieldOk(fields[i], v)
  }

  // ----- The one pass, as a function -----

  datatype Seen = Seen(ok: bool, found: set<nat>, remaining: int)

  /** The iteration: stops at a wrong type, or when as many members matched as there are fields. */
  function Scan(checks: seq<FieldCheck>, index: map<string, nat>, members: seq<Member>, found: set<nat>,
                remaining: int): Seen
    requires forall n :: n in index ==> index[n] < |checks|
  {
    if members == [] then Seen(true, found, remaining)
    else if members[0].name !in index then Scan(checks, index, members[1..], found, remaining)
    else
      var i := index[members[0].name];
      if !ValidateType(checks[i].checkType, members[0].value) then Seen(false, found, remaining)
      else if remaining - 1 == 0 then Seen(true, found + {i}, 0)
      else Scan(checks, index, members[1..], found + {i}, remaining - 1)
  }

  /** What the fallback looks up for a field that was not iterated over. */
  predicate FallbackOk(c: FieldCheck, v: Value) {
    && '.' in c.name
    && var value := if Literal(v, c.name).Some? then Literal(v, c.name) else Nested(v, c.name);
      value.Some? && ValidateType(c.checkType, value.value)
  }

  predicate OnePass(checks: seq<FieldCheck>, index: map<string, nat>, v: Value)
    requires forall n :: n in index ==> index[n] < |checks|
  {
    && (v.Object? || v.Array?)
    && var seen := Scan(checks, index, Members(v), {}, |checks|);
      seen.ok && (seen.remaining == 0 || forall i :: 0 <= i < |checks| ==> i in seen.found || FallbackOk(checks[i], v))
  }

  /** The checks and the index of a validator made from these fields. */
  ghost predicate ChecksOf(checks: seq<FieldCheck>, index: map<string, nat>, fields: seq<Field>) {
    && |checks| == |fields|
    && (forall i :: 0 <= i < |fields| ==> checks[i] == FieldCheck(fields[i].name, CheckTypeOf(fields[i].kind)))
    && (forall i :: 0 <= i < |fields| ==> fields[i].name in index)
    && (forall n :: n in index ==> index[n] < |checks| && checks[index[n]].name == n)
  }

  // ----- Agreement -----

  /** The fields found so far are none of those still to come, and `remaining` counts the others. */
  ghost predicate InStep(checks: seq<FieldCheck>, members: seq<Member>, found: set<nat>, remaining: int) {
    && (forall i :: i in found ==> i < |checks| && !Occurs(members, checks[i].name))
    && remaining == |checks| - |found|
  }

  lemma NextInStep(checks: seq<FieldCheck>, members: seq<Member>, names: set<string>, found: set<nat>, remaining: int,
                   i: nat)
    requires members != [] && NoneTwice(members, names) && InStep(checks, members, found, remaining)
    ensures NoneTwice(members[1..], names) && InStep(checks, members[1..], found, remaining)
    ensures i < |checks| && checks[i].name == members[0].name && members[0].name in names ==>
      i !in found && InStep(checks, members[1..], found + {i}, remaining - 1)
  {
    var rest := members[1..];
    assert forall j :: 0 <= j < |rest| ==> rest[j] == members[j + 1];
    forall n: string ensures Occurs(members, n) <==> members[0].name == n || Occurs(rest, n) {
      OccursFirst(members, n);
    }
  }

  /** When as many fields are found as there are, every field is found. */
  lemma AllFound(n: nat, found: set<nat>, i: nat)
    requires i < n && (forall k :: k in found ==> k < n) && |found| == n
    ensures i in found
  {
    if i !in found {
      BelowCount(n);
      SubsetCount(found, Below(n) - {i});
    }
  }

  ghost predicate TypesOk(checks: seq<FieldCheck>, index: map<string, nat>, members: seq<Member>)
    requires forall n :: n in index ==> index[n] < |checks|
  {
    forall k :: 0 <= k < |members| && members[k].name in index ==>
      ValidateType(checks[index[members[k].name]].checkType, members[k].value)
  }

  lemma TypesOkFirst(checks: seq<FieldCheck>, index: map<string, nat>, members: seq<Member>)
    requires members != [] && forall n :: n in index ==> index[n] < |checks|
    ensures TypesOk(checks, index, members) <==>
      (members[0].name in index ==> ValidateType(checks[index[members[0].name]].checkType, members[0].value)) &&
        TypesOk(checks, index, members[1..])
  {
    var rest := members[1..];
    assert forall j :: 0 <= j < |rest| ==> rest[j] == members[j + 1];
    if TypesOk(checks, index, rest) {
      forall k | 0 < k < |members| && members[k].name in index
        ensures ValidateType(checks[index[members[k].name]].checkType, members[k].value)
      {
        assert rest[k - 1] == members[k];
      }
    }
  }

  lemma IndexInRange(checks: seq<FieldCheck>, index: map<string, nat>, fields: seq<Field>)
    requires ChecksOf(checks, index, fields)
    ensures |checks| == |fields| && forall n :: n in index ==> index[n] < |checks|
  {
    hide CheckTypeOf;
  }

  lemma CheckAt(checks: seq<FieldCheck>, index: map<string, nat>, fields: seq<Field>, name: string)
    requires ChecksOf(checks, index, fields) && name in index
    ensures index[name] < |checks| == |fields| && checks[index[name]].name == name && name in Names(fields)
  {
    hide CheckTypeOf;
    assert fields[index[name]].name == name;
  }

  /** What a scan that starts with some fields found must have seen. */
  ghost predicate ScanMeans(checks: seq<FieldCheck>, index: map<string, nat>, members: seq<Member>, found: set<nat>,
                            seen: Seen)
    requires forall n :: n in index ==> index[n] < |checks|
  {
    && (seen.ok <==> TypesOk(checks, index, members))
    && (seen.ok ==>
      forall i :: 0 <= i < |checks| ==> (i in seen.found <==> i in found || Occurs(members, checks[i].name)))
    && (seen.ok ==> seen.found <= Below(|checks|) && seen.remaining == |checks| - |seen.found|)
  }

  lemma ScanPassesBy(checks: seq<FieldCheck>, index: map<string, nat>, fields: seq<Field>, members: seq<Member>,
                     found: set<nat>, seen: Seen)
    requires members != [] && members[0].name !in index && ChecksOf(checks, index, fields)
    requires ScanMeans(checks, index, members[1..], found, seen)
    ensures ScanMeans(checks, index, members, found, seen)
  {
    hide TypesOk, Occurs, ValidateType, CheckTypeOf;
    TypesOkFirst(checks, index, members);
    forall i | 0 <= i < |checks| ensures Occurs(members, checks[i].name) <==> Occurs(members[1..], checks[i].name) {
      assert checks[i].name == fields[i].name;
      OccursFirst(members, checks[i].name);
    }
  }

  lemma ScanFindsOne(checks: seq<FieldCheck>, index: map<string, nat>, fields: seq<Field>, members: seq<Member>,
                     found: set<nat>, seen: Seen)
    requires members != [] && members[0].name in index && ChecksOf(checks, index, fields) && DistinctNames(fields)
    requires ValidateType(checks[index[members[0].name]].checkType, members[0].value)
    requires ScanMeans(checks, index, members[1..], found + {index[members[0].name]}, seen)
    ensures ScanMeans(checks, index, members, found, seen)
  {
    hide TypesOk, Occurs, ValidateType, CheckTypeOf;
    TypesOkFirst(checks, index, members);
    var i := index[members[0].name];
    forall j | 0 <= j < |checks|
      ensures Occurs(members, checks[j].name) <==> j == i || Occurs(members[1..], checks[j].name)
    {
      OccursFirst(members, checks[j].name);
      assert checks[j].name == fields[j].name && checks[i].name == fields[i].name;
    }
  }

  /** The scan accepts when all matching members have the right type, and what it found then
    * is what occurs; stopping early misses nothing because no field occurs twice. */
  lemma {:induction false} ScanFindsAll(checks: seq<FieldCheck>, index: map<string, nat>, fields: seq<Field>,
                                        members: seq<Member>, found: set<nat>, remaining: int)
    requires ChecksOf(checks, index, fields) && NoneTwice(members, Names(fields)) &&
      InStep(checks, members, found, remaining)
    requires DistinctNames(fields) && (remaining > 0 || fields == [])
    ensures ScanMeans(checks, index, members, found, Scan(checks, index, members, found, remaining))
  {
    hide NoneTwice, InStep, Occurs, TypesOk, ChecksOf, Names, DistinctNames, ValidateType, ScanMeans, Below;
    IndexInRange(checks, index, fields);
    if members == [] {
      ScanOfNothing(checks, index, members, found, remaining);
    } else if members[0].name !in index {
      NextInStep(checks, members, Names(fields), found, remaining, 0);
      ScanFindsAll(checks, index, fields, members[1..], found, remaining);
      ScanPassesBy(checks, index, fields, members, found, Scan(checks, index, members[1..], found, remaining));
    } else if !ValidateType(checks[index[members[0].name]].checkType, members[0].value) {
      WrongTypeEnds(checks, index, members, found, remaining);
    } else {
      var i, rest := index[members[0].name], members[1..];
      CheckAt(checks, index, fields, members[0].name);
      NextInStep(checks, members, Names(fields), found, remaining, i);
      var seen := Seen(true, found + {i}, 0);
      if remaining - 1 == 0 {
        AllFoundMeansDone(checks, index, fields, rest, found + {i});
      } else {
        ScanFindsAll(checks, index, fields, rest, found + {i}, remaining - 1);
        seen := Scan(checks, index, rest, found + {i}, remaining - 1);
      }
      ScanFindsOne(checks, index, fields, members, found, seen);
    }
  }

  lemma WrongTypeEnds(checks: seq<FieldCheck>, index: map<string, nat>, members: seq<Member>, found: set<nat>,
                      remaining: int)
    requires members != [] && members[0].name in index && forall n :: n in index ==> index[n] < |checks|
    requires !ValidateType(checks[index[members[0].name]].checkType, members[0].value)
    ensures ScanMeans(checks, index, members, found, Seen(false, found, remaining))
  {
    TypesOkFirst(checks, index, members);
  }

  lemma ScanOfNothing(checks: seq<FieldCheck>, index: map<string, nat>, members: seq<Member>, found: set<nat>,
                      remaining: int)
    requires members == [] && InStep(checks, members, found, remaining) && forall n :: n in index ==>
      index[n] < |checks|
    ensures ScanMeans(checks, index, members, found, Seen(true, found, remaining))
  {
  }

  /** Once all fields are found, none is still to come. */
  lemma AllFoundMeansDone(checks: seq<FieldCheck>, index: map<string, nat>, fields: seq<Field>, rest: seq<Member>,
                          found: set<nat>)
    requires ChecksOf(checks, index, fields) && InStep(checks, rest, found, 0)
    ensures ScanMeans(checks, index, rest, found, Seen(true, found, 0))
  {
    hide ChecksOf, Occurs, ValidateType;
    forall i: nat | i < |checks| ensures i in found {
      AllFound(|checks|, found, i);
    }
    forall k | 0 <= k < |rest| ensures rest[k].name !in index {
      if rest[k].name in index {
        CheckAt(checks, index, fields, rest[k].name);
        Occurrence(rest, k);
        assert false;
      }
    }
  }

  lemma Occurrence(members: seq<Member>, k: nat)
    requires k < |members|
    ensures Occurs(members, members[k].name)
  {
  }

  lemma NothingFoundYet(checks: seq<FieldCheck>, members: seq<Member>)
    ensures InStep(checks, members, {}, |checks|)
  {
  }

  /** One field is in order exactly when the pass found it with the right type or the fallback does. */
  lemma FieldInPass(checks: seq<FieldCheck>, index: map<string, nat>, fields: seq<Field>, v: Value, i: nat)
    requires ChecksOf(checks, index, fields) && DistinctNames(fields) && NoneTwice(Members(v), Names(fields)) &&
      i < |fields|
    ensures Occurs(Members(v), checks[i].name) && TypesOk(checks, index, Members(v)) ==> FieldOk(fields[i], v)
    ensures !Occurs(Members(v), checks[i].name) ==> (FallbackOk(checks[i], v) <==> FieldOk(fields[i], v))
  {
    hide CheckTypeOf, Occurs, ValidateType;
    var name := fields[i].name;
    assert checks[i].name == name && checks[i].checkType == CheckTypeOf(fields[i].kind);
    LiteralOccurs(v, name);
    if '.' !in name {
      PlainField(v, name);
    }
    if Occurs(Members(v), name) {
      var k := OccursAt(Members(v), name);
      CheckAt(checks, index, fields, name);
      MemberIsLiteral(v, Names(fields), k);
      assert checks[index[name]].name == fields[index[name]].name;
    }
  }

  lemma OccursAt(members: seq<Member>, name: string) returns (k: nat)
    requires Occurs(members, name)
    ensures k < |members| && members[k].name == name
  {
    k :| k < |members| && members[k].name == name;
  }

  /** A member of the wrong type is the value its field is looked up as. */
  lemma WrongMember(checks: seq<FieldCheck>, index: map<string, nat>, fields: seq<Field>, v: Value)
    requires ChecksOf(checks, index, fields) && NoneTwice(Members(v), Names(fields)) && forall n :: n in index ==>
      index[n] < |checks|
    requires !TypesOk(checks, index, Members(v))
    ensures !Conforms(fields, v)
  {
    hide CheckTypeOf, ValidateType;
    var ms := Members(v);
    var k :| 0 <= k < |ms| && ms[k].name in index && !ValidateType(checks[index[ms[k].name]].checkType, ms[k].value);
    var i := index[ms[k].name];
    CheckAt(checks, index, fields, ms[k].name);
    MemberIsLiteral(v, Names(fields), k);
    assert checks[i].name == fields[i].name && checks[i].checkType == CheckTypeOf(fields[i].kind);
    if '.' !in ms[k].name {
      PlainField(v, ms[k].name);
    }
    assert !FieldOk(fields[i], v);
  }

  /** For distinct field names and a message in which no field occurs twice, one pass with
    * early stop and fallback accepts exactly what the simple check accepts. */
  lemma OnePassConforms(checks: seq<FieldCheck>, index: map<string, nat>, fields: seq<Field>, v: Value)
    requires ChecksOf(checks, index, fields) && forall n :: n in index ==> index[n] < |checks|
    requires DistinctNames(fields) && NoneTwice(Members(v), Names(fields))
    ensures OnePass(checks, index, v) <==> Conforms(fields, v)
  {
    hide CheckTypeOf, ValidateType, Scan, TypesOk, FallbackOk, FieldOk, NoneTwice, Names, DistinctNames, Occurs;
    var ms, n := Members(v), |checks|;
    NothingFoundYet(checks, ms);
    ScanFindsAll(checks, index, fields, ms, {}, n);
    var seen := Scan(checks, index, ms, {}, n);
    if !seen.ok {
      WrongMember(checks, index, fields, v);
    } else {
      BelowCount(n);
      forall i: nat | i < n ensures (i in seen.found || FallbackOk(checks[i], v)) <==> FieldOk(fields[i], v) {
        FieldInPass(checks, index, fields, v, i);
      }
      if seen.remaining == 0 {
        forall i: nat | i < n ensures i in seen.found {
          AllFound(n, seen.found, i);
        }
      }
    }
  }

  /** A repeated member makes the pass stop early: the second field is missing, yet accepted. */
  lemma RepeatedMemberIsCountedTwice()
    ensures var fields := [Field("a", "int"), Field("b", "int")];
      var checks := [FieldCheck("a", IsNumber), FieldCheck("b", IsNumber)];
      var v := Object([Member("a", Number("1")), Member("a", Number("2"))]);
      ChecksOf(checks, map["a" := 0, "b" := 1], fields) && OnePass(checks, map["a" := 0, "b" := 1], v) &&
        !Conforms(fields, v)
  {
    var fields := [Field("a", "int"), Field("b", "int")];
    var checks := [FieldCheck("a", IsNumber), FieldCheck("b", IsNumber)];
    var ms := [Member("a", Number("1")), Member("a", Number("2"))];
    var index: map<string, nat> := map["a" := 0, "b" := 1];
    assert ms[1..] == [Member("a", Number("2"))];
    assert Scan(checks, index, ms[1..], {0}, 1) == Seen(true, {0} + {0}, 0);
    assert Scan(checks, index, ms, {}, 2) == Scan(checks, index, ms[1..], {} + {0}, 1);
    LiteralIn(ms, "b");
    PlainField(Object(ms), "b");
    assert !FieldOk(fields[1], Object(ms));
  }

  // ----- Exactly when an accepted message conforms -----

  /** How many of the first k names are among `fieldNames`. */
  function Matches(fieldNames: set<string>, names: seq<string>, k: nat): nat
    requires k <= |names|
  {
    if k == 0 then 0
    else (if names[0] in fieldNames then 1 else 0) + Matches(fieldNames, names[1..], k - 1)
  }

  /** On these member names the scan stops before it comes to the name: by position p as many
    * field-named members were met as there are fields, and this one was not among them. */
  ghost predicate LeftOut(fields: seq<Field>, names: seq<string>, name: string) {
    exists p :: StopsAt(Names(fields), names, |fields|, name, p)
  }

  ghost predicate StopsAt(fieldNames: set<string>, names: seq<string>, remaining: int, name: string, p: nat) {
    p < |names| && names[p] in fieldNames && Matches(fieldNames, names, p) + 1 == remaining && name !in names[..p + 1]
  }

  /** A field that is left out although it may be missing or of another type. A field of
    * unknown type that occurs later is in order whatever its value. */
  ghost predicate Harmed(fields: seq<Field>, names: seq<string>, g: nat) {
    && g < |fields| && LeftOut(fields, names, fields[g].name)
    && (CheckTypeOf(fields[g].kind) != IsNone || fields[g].name !in names)
  }

  ghost predicate Unharmed(fields: seq<Field>, names: seq<string>) {
    forall g :: !Harmed(fields, names, g)
  }

  /** The same as a recursion over the names. */
  predicate StopsBefore(fieldNames: set<string>, names: seq<string>, remaining: int, name: string) {
    if names == [] then false
    else if names[0] !in fieldNames then StopsBefore(fieldNames, names[1..], remaining, name)
    else names[0] != name && (remaining - 1 == 0 || StopsBefore(fieldNames, names[1..], remaining - 1, name))
  }

  lemma StopsLater(fieldNames: set<string>, names: seq<string>, remaining: int, name: string, p: nat)
    requires names != [] && names[0] != name
    ensures StopsAt(fieldNames, names, remaining, name, p + 1) <==>
      StopsAt(fieldNames, names[1..], remaining - (if names[0] in fieldNames then 1 else 0), name, p)
  {
    if p + 1 < |names| {
      assert names[..p + 2] == [names[0]] + names[1..][..p + 1];
    }
  }

  lemma {:induction false} StopsBeforeIff(fieldNames: set<string>, names: seq<string>, remaining: int, name: string)
    requires name in fieldNames && remaining > 0
    ensures StopsBefore(fieldNames, names, remaining, name) <==>
      exists p :: StopsAt(fieldNames, names, remaining, name, p)
  {
    if names != [] && names[0] != name {
      var left := remaining - (if names[0] in fieldNames then 1 else 0);
      if left > 0 {
        StopsBeforeIff(fieldNames, names[1..], left, name);
      }
      forall p: nat
        ensures StopsAt(fieldNames, names, remaining, name, p + 1) <==> StopsAt(fieldNames, names[1..], left, name, p)
      {
        StopsLater(fieldNames, names, remaining, name, p);
      }
      if p: nat :| StopsAt(fieldNames, names, remaining, name, p) {
        assert p > 0 ==> StopsAt(fieldNames, names[1..], left, name, p - 1);
      }
      if p: nat :| StopsAt(fieldNames, names[1..], left, name, p) {
        assert StopsAt(fieldNames, names, remaining, name, p + 1);
      }
      if left == 0 {
        assert StopsAt(fieldNames, names, remaining, name, 0);
      }
    } else if names != [] {
      forall p: nat ensures !StopsAt(fieldNames, names, remaining, name, p) {
        assert p < |names| ==> names[..p + 1][0] == name;
      }
    }
  }

  function NamesOf(members: seq<Member>): (names: seq<string>)
    ensures |names| == |members|
  {
    seq(|members|, i requires 0 <= i < |members| => members[i].name)
  }

  lemma NamesOfRest(members: seq<Member>)
    requires members != []
    ensures NamesOf(members)[0] == members[0].name && NamesOf(members)[1..] == NamesOf(members[1..])
  {
  }

  /** A field found by a successful scan has the right type where the lookup finds it, and a
    * scan that was not stopped finds every field that occurs. */
  lemma {:induction false} ScanSees(checks: seq<FieldCheck>, index: map<string, nat>, fields: seq<Field>,
                                    members: seq<Member>, found: set<nat>, remaining: int, i: nat)
    requires ChecksOf(checks, index, fields) && DistinctNames(fields) && i < |checks| && i !in found
    requires forall n :: n in index ==> index[n] < |checks|
    requires Scan(checks, index, members, found, remaining).ok
    ensures var seen, literal := Scan(checks, index, members, found, remaining), GetIn(members, [checks[i].name]);
      && (i in seen.found ==> literal.Some? && ValidateType(checks[i].checkType, literal.value))
      && (seen.remaining != 0 && literal.Some? ==> i in seen.found)
  {
    hide CheckTypeOf, ValidateType;
    if members != [] {
      assert checks[i].name == fields[i].name;
      if members[0].name !in index {
        ScanSees(checks, index, fields, members[1..], found, remaining, i);
      } else {
        var k := index[members[0].name];
        CheckAt(checks, index, fields, members[0].name);
        assert checks[k].name == fields[k].name;
        if remaining - 1 != 0 {
          if k == i {
            FoundStays(checks, index, members[1..], found + {k}, remaining - 1, i);
          } else {
            ScanSees(checks, index, fields, members[1..], found + {k}, remaining - 1, i);
          }
        }
      }
    }
  }

  lemma {:induction false} FoundStays(checks: seq<FieldCheck>, index: map<string, nat>, members: seq<Member>,
                                      found: set<nat>, remaining: int, i: nat)
    requires forall n :: n in index ==> index[n] < |checks|
    requires i in found
    ensures i in Scan(checks, index, members, found, remaining).found
  {
    if members != [] && members[0].name !in index {
      FoundStays(checks, index, members[1..], found, remaining, i);
    } else if members != [] {
      FoundStays(checks, index, members[1..], found + {index[members[0].name]}, remaining - 1, i);
    }
  }

  /** What a scan that used up `remaining` did not find, it stopped before. */
  lemma {:induction false} NotFoundIsLeftOut(checks: seq<FieldCheck>, index: map<string, nat>, members: seq<Member>,
                                             found: set<nat>,
                                             remaining: int, i: nat, name: string)
    requires (forall n :: n in index ==> index[n] < |checks|) && remaining > 0
    requires forall n :: n in index && index[n] != i ==> n != name
    requires var seen := Scan(checks, index, members, found, remaining);
      seen.ok && seen.remaining == 0 && i !in seen.found
    ensures StopsBefore(index.Keys, NamesOf(members), remaining, name)
  {
    NamesOfRest(members);
    if members[0].name !in index {
      NotFoundIsLeftOut(checks, index, members[1..], found, remaining, i, name);
    } else {
      var k := index[members[0].name];
      if remaining - 1 != 0 {
        if k == i {
          FoundStays(checks, index, members[1..], found + {k}, remaining - 1, i);
        }
        NotFoundIsLeftOut(checks, index, members[1..], found + {k}, remaining - 1, i, name);
      }
    }
  }

  lemma IndexOf(checks: seq<FieldCheck>, index: map<string, nat>, fields: seq<Field>, i: nat)
    requires ChecksOf(checks, index, fields) && DistinctNames(fields) && i < |fields|
    ensures index.Keys == Names(fields)
    ensures forall n :: n in index ==> (index[n] == i <==> n == fields[i].name)
  {
    hide CheckTypeOf;
    forall n | n in index ensures n in Names(fields) && (index[n] == i <==> n == fields[i].name) {
      CheckAt(checks, index, fields, n);
      assert checks[index[n]].name == fields[index[n]].name;
    }
  }

  /** Unless a field is harmed, an accepted message conforms, repeated members or not. */
  lemma AcceptedConforms(checks: seq<FieldCheck>, index: map<string, nat>, fields: seq<Field>, v: Value)
    requires ChecksOf(checks, index, fields) && DistinctNames(fields) && forall n :: n in index ==> index[n] < |checks|
    requires OnePass(checks, index, v) && Unharmed(fields, NamesOf(Members(v)))
    ensures Conforms(fields, v)
  {
    hide CheckTypeOf, ValidateType, Scan, FieldOk, FallbackOk, Harmed;
    forall i: nat | i < |fields| ensures FieldOk(fields[i], v) {
      assert !Harmed(fields, NamesOf(Members(v)), i);
      FieldAccepted(checks, index, fields, v, i);
    }
  }

  lemma FieldAccepted(checks: seq<FieldCheck>, index: map<string, nat>, fields: seq<Field>, v: Value, i: nat)
    requires ChecksOf(checks, index, fields) && DistinctNames(fields) && forall n :: n in index ==> index[n] < |checks|
    requires i < |fields| && OnePass(checks, index, v) && !Harmed(fields, NamesOf(Members(v)), i)
    ensures FieldOk(fields[i], v)
  {
    hide CheckTypeOf, Scan, StopsBefore, StopsAt;
    var ms, name := Members(v), fields[i].name;
    var seen := Scan(checks, index, ms, {}, |checks|);
    assert checks[i].name == name && checks[i].checkType == CheckTypeOf(fields[i].kind);
    LiteralOccurs(v, name);
    if '.' !in name {
      PlainField(v, name);
    }
    if i in seen.found {
      ScanSees(checks, index, fields, ms, {}, |checks|, i);
    } else if seen.remaining == 0 {
      IndexOf(checks, index, fields, i);
      NotFoundIsLeftOut(checks, index, ms, {}, |checks|, i, name);
      StopsBeforeIff(index.Keys, NamesOf(ms), |checks|, name);
      assert LeftOut(fields, NamesOf(ms), name);
      var k :| 0 <= k < |ms| && NamesOf(ms)[k] == name;
      assert ms[k].name == name;
    }
  }

  lemma AcceptedMayConform(checks: seq<FieldCheck>, index: map<string, nat>, fields: seq<Field>, v: Value)
    requires ChecksOf(checks, index, fields)
    ensures forall n :: n in index ==> index[n] < |checks|
    ensures DistinctNames(fields) && OnePass(checks, index, v) && Unharmed(fields, NamesOf(Members(v))) ==>
      Conforms(fields, v)
  {
    IndexInRange(checks, index, fields);
    hide ChecksOf, DistinctNames, Unharmed, Conforms, Scan;
    if DistinctNames(fields) && OnePass(checks, index, v) && Unharmed(fields, NamesOf(Members(v))) {
      AcceptedConforms(checks, index, fields, v);
    }
  }

  function RightValue(c: CheckType): (v: Value)
    ensures ValidateType(c, v) && Members(v) == []
  {
    match c
    case IsString => Text("")
    case IsNumber => Number("0")
    case IsBool => Bool(true)
    case IsArray => Array([])
    case IsObject => Object([])
    case IsNone => Null
  }

  /** Members of these names with the right types, except that field g is null. */
  function WitnessFor(checks: seq<FieldCheck>, index: map<string, nat>, names: seq<string>, g: nat): (ms: seq<Member>)
    requires forall n :: n in index ==> index[n] < |checks|
    ensures NamesOf(ms) == names && |ms| == |names|
    ensures forall j :: 0 <= j < |ms| ==>
      Members(ms[j].value) == [] && (names[j] in index && index[names[j]] == g ==> ms[j].value == Null)
    ensures forall j :: 0 <= j < |ms| && names[j] in index && index[names[j]] != g ==>
      ValidateType(checks[index[names[j]]].checkType, ms[j].value)
  {
    seq(|names|, j requires 0 <= j < |names| =>
      Member(names[j], if names[j] in index && index[names[j]] != g then RightValue(checks[index[names[j]]].checkType)
        else Null))
  }

  lemma {:induction false} WitnessPasses(checks: seq<FieldCheck>, index: map<string, nat>, members: seq<Member>,
                                         found: set<nat>,
                                         remaining: int, g: nat, name: string)
    requires forall n :: n in index ==> index[n] < |checks|
    requires forall j :: 0 <= j < |members| && members[j].name in index && index[members[j].name] != g ==>
      ValidateType(checks[index[members[j].name]].checkType, members[j].value)
    requires StopsBefore(index.Keys, NamesOf(members), remaining, name) && forall n :: n in index && n != name ==>
      index[n] != g
    ensures var seen := Scan(checks, index, members, found, remaining); seen.ok && seen.remaining == 0
  {
    hide ValidateType;
    NamesOfRest(members);
    assert forall j :: 0 <= j < |members[1..]| ==> members[1..][j] == members[j + 1];
    if members[0].name !in index {
      WitnessPasses(checks, index, members[1..], found, remaining, g, name);
    } else if remaining - 1 != 0 {
      WitnessPasses(checks, index, members[1..], found + {index[members[0].name]}, remaining - 1, g, name);
    }
  }

  lemma WitnessFails(checks: seq<FieldCheck>, index: map<string, nat>, fields: seq<Field>, names: seq<string>, g: nat)
    requires ChecksOf(checks, index, fields) && DistinctNames(fields) && forall n :: n in index ==> index[n] < |checks|
    requires g < |fields| && (CheckTypeOf(fields[g].kind) != IsNone || fields[g].name !in names)
    ensures !FieldOk(fields[g], Object(WitnessFor(checks, index, names, g)))
  {
    hide CheckTypeOf, WitnessFor;
    var name, ms := fields[g].name, WitnessFor(checks, index, names, g);
    var v := Object(ms);
    assert checks[g].name == name && checks[index[name]].name == fields[index[name]].name;
    assert forall j :: 0 <= j < |ms| ==> ms[j].name == NamesOf(ms)[j];
    LiteralOccurs(v, name);
    if '.' !in name {
      PlainField(v, name);
    } else if Literal(v, name).None? {
      SplitSeparated(name, '.');
      NothingNested(ms, Split(name, '.'));
    }
    if Literal(v, name).Some? {
      LiteralIsAMember(ms, name);
      var j :| 0 <= j < |ms| && ms[j].name == name && Literal(v, name) == Some(ms[j].value);
      assert names[j] == name;
    }
  }

  lemma {:induction false} LiteralIsAMember(members: seq<Member>, name: string)
    requires GetIn(members, [name]).Some?
    ensures exists j ::
      0 <= j < |members| && members[j].name == name && GetIn(members, [name]) == Some(members[j].value)
  {
    if members[0].name != name {
      LiteralIsAMember(members[1..], name);
      var j :| 0 <= j < |members[1..]| && members[1..][j].name == name &&
        GetIn(members[1..], [name]) == Some(members[1..][j].value);
      assert members[j + 1] == members[1..][j];
    }
  }

  /** A message on which the one pass and the simple check differ in the unsafe direction. */
  ghost predicate WronglyAccepted(checks: seq<FieldCheck>, index: map<string, nat>, fields: seq<Field>,
                                  names: seq<string>, v: Value)
    requires forall n :: n in index ==> index[n] < |checks|
  {
    NamesOf(Members(v)) == names && OnePass(checks, index, v) && !Conforms(fields, v)
  }

  /** Whatever the values are, accepted messages with these top-level names conform, exactly
    * when the names harm no field. */
  lemma AcceptanceIsSoundIff(checks: seq<FieldCheck>, index: map<string, nat>, fields: seq<Field>, names: seq<string>)
    requires ChecksOf(checks, index, fields) && DistinctNames(fields) && forall n :: n in index ==> index[n] < |checks|
    ensures (forall v: Value :: !WronglyAccepted(checks, index, fields, names, v)) <==> Unharmed(fields, names)
  {
    hide CheckTypeOf, ValidateType, FieldOk, FallbackOk, WitnessFor, StopsBefore, StopsAt, Scan;
    if Unharmed(fields, names) {
      forall v: Value | NamesOf(Members(v)) == names && OnePass(checks, index, v) ensures Conforms(fields, v) {
        AcceptedConforms(checks, index, fields, v);
      }
    } else {
      var g: nat :| Harmed(fields, names, g);
      var ms, name := WitnessFor(checks, index, names, g), fields[g].name;
      IndexOf(checks, index, fields, g);
      StopsBeforeIff(index.Keys, names, |fields|, name);
      assert forall j :: 0 <= j < |ms| ==> ms[j].name == NamesOf(ms)[j];
      WitnessPasses(checks, index, ms, {}, |checks|, g, name);
      WitnessFails(checks, index, fields, names, g);
      assert WronglyAccepted(checks, index, fields, names, Object(ms));
    }
  }

  /** A member that the scan meets, because fewer field-named members than there are fields
    * come before it, has another type than the field of its name. */
  ghost predicate MetWrong(fields: seq<Field>, members: seq<Member>, k: nat) {
    && k < |members| && Matches(Names(fields), NamesOf(members), k) < |fields|
    && exists i :: 0 <= i < |fields| && fields[i].name == members[k].name
         && !ValidateType(CheckTypeOf(fields[i].kind), members[k].value)
  }

  /** The same with the checks, from some point of the scan on. */
  ghost predicate NoneWrong(checks: seq<FieldCheck>, index: map<string, nat>, members: seq<Member>, remaining: int)
    requires forall n :: n in index ==> index[n] < |checks|
  {
    forall k ::
      0 <= k < |members| && members[k].name in index && Matches(index.Keys, NamesOf(members), k) < remaining ==>
      ValidateType(checks[index[members[k].name]].checkType, members[k].value)
  }

  lemma NoneWrongFirst(checks: seq<FieldCheck>, index: map<string, nat>, members: seq<Member>, remaining: int)
    requires members != [] && remaining > 0 && forall n :: n in index ==> index[n] < |checks|
    ensures NoneWrong(checks, index, members, remaining) <==>
      && (members[0].name in index ==> ValidateType(checks[index[members[0].name]].checkType, members[0].value))
      && NoneWrong(checks, index, members[1..], remaining - (if members[0].name in index then 1 else 0))
  {
    hide ValidateType;
    var rest, left := members[1..], remaining - (if members[0].name in index then 1 else 0);
    NamesOfRest(members);
    forall k: nat | k < |rest|
      ensures rest[k] == members[k + 1]
      ensures Matches(index.Keys, NamesOf(members), k + 1) < remaining <==> Matches(index.Keys, NamesOf(rest), k) < left
    {
    }
    if NoneWrong(checks, index, rest, left) {
      forall k | 0 < k < |members| && members[k].name in index && Matches(index.Keys, NamesOf(members), k) < remaining
        ensures ValidateType(checks[index[members[k].name]].checkType, members[k].value)
      {
        assert members[k] == rest[k - 1];
      }
    }
  }

  lemma {:induction false} ScanIsOkIff(checks: seq<FieldCheck>, index: map<string, nat>, members: seq<Member>,
                                       found: set<nat>,
                                       remaining: int)
    requires (forall n :: n in index ==> index[n] < |checks|) && (remaining > 0 || index == map[])
    ensures Scan(checks, index, members, found, remaining).ok <==> NoneWrong(checks, index, members, remaining)
  {
    hide ValidateType, NoneWrong;
    if members == [] || index == map[] {
      NoneToBeWrong(checks, index, members, found, remaining);
    } else {
      NoneWrongFirst(checks, index, members, remaining);
      if members[0].name !in index {
        ScanIsOkIff(checks, index, members[1..], found, remaining);
      } else if remaining - 1 != 0 {
        ScanIsOkIff(checks, index, members[1..], found + {index[members[0].name]}, remaining - 1);
      } else {
        NoneLeft(checks, index, members[1..]);
      }
    }
  }

  lemma NoneLeft(checks: seq<FieldCheck>, index: map<string, nat>, members: seq<Member>)
    requires forall n :: n in index ==> index[n] < |checks|
    ensures NoneWrong(checks, index, members, 0)
  {
  }

  lemma {:induction false} NoneToBeWrong(checks: seq<FieldCheck>, index: map<string, nat>, members: seq<Member>,
                                         found: set<nat>,
                                         remaining: int)
    requires (members == [] || index == map[]) && forall n :: n in index ==> index[n] < |checks|
    ensures NoneWrong(checks, index, members, remaining) && Scan(checks, index, members, found, remaining).ok
  {
    if members != [] {
      NoneToBeWrong(checks, index, members[1..], found, remaining);
    }
  }

  lemma MetWrongIff(checks: seq<FieldCheck>, index: map<string, nat>, fields: seq<Field>, members: seq<Member>)
    requires ChecksOf(checks, index, fields) && DistinctNames(fields) && forall n :: n in index ==> index[n] < |checks|
    ensures NoneWrong(checks, index, members, |fields|) <==> forall k :: !MetWrong(fields, members, k)
  {
    hide CheckTypeOf, ValidateType;
    forall i: nat | i < |fields|
      ensures fields[i].name in index && index[fields[i].name] == i && index.Keys == Names(fields)
    {
      IndexOf(checks, index, fields, i);
    }
    if NoneWrong(checks, index, members, |fields|) {
      forall k ensures !MetWrong(fields, members, k) {
      }
    } else {
      var k :| 0 <= k < |members| && members[k].name in index && Matches(index.Keys, NamesOf(members), k) < |fields|
        && !ValidateType(checks[index[members[k].name]].checkType, members[k].value);
      CheckAt(checks, index, fields, members[k].name);
      assert checks[index[members[k].name]].name == fields[index[members[k].name]].name;
      assert MetWrong(fields, members, k);
    }
  }

  /** A conforming message is accepted exactly when no member that the scan meets has another
    * type than the field of its name. */
  lemma ConformingIsAcceptedIff(checks: seq<FieldCheck>, index: map<string, nat>, fields: seq<Field>, v: Value)
    requires ChecksOf(checks, index, fields) && DistinctNames(fields) && forall n :: n in index ==> index[n] < |checks|
    requires Conforms(fields, v)
    ensures OnePass(checks, index, v) <==> forall k :: !MetWrong(fields, Members(v), k)
  {
    hide CheckTypeOf, ValidateType, Scan, MetWrong, NoneWrong;
    var ms := Members(v);
    var seen := Scan(checks, index, ms, {}, |checks|);
    NoFieldsNoIndex(checks, index);
    ScanIsOkIff(checks, index, ms, {}, |checks|);
    MetWrongIff(checks, index, fields, ms);
    if seen.ok && seen.remaining != 0 {
      forall i: nat | i < |checks| ensures i in seen.found || FallbackOk(checks[i], v) {
        ScanSees(checks, index, fields, ms, {}, |checks|, i);
        assert FieldOk(fields[i], v) && checks[i].name == fields[i].name;
        if '.' !in fields[i].name {
          PlainField(v, fields[i].name);
        }
      }
    }
  }

  lemma NoFieldsNoIndex(checks: seq<FieldCheck>, index: map<string, nat>)
    requires forall n :: n in index ==> index[n] < |checks|
    ensures |checks| > 0 || index == map[]
  {
    if |checks| == 0 {
      assert forall n :: n !in index;
    }
  }

  /** Every field of an accepted message can be looked up later. */
  lemma AcceptedFieldsAreFound(fields: seq<Field>, v: Value, key: string)
    requires Conforms(fields, v) && key in Names(fields)
    ensures FieldValue(v, key).Some?
  {
    hide CheckTypeOf;
    var i :| 0 <= i < |fields| && fields[i].name == key;
    assert FieldOk(fields[i], v);
  }

  ghost function FoundIn(found: seq<bool>): set<nat> {
    set i | 0 <= i < |found| && found[i]
  }

  lemma FoundMore(found: seq<bool>, i: nat)
    requires i < |found|
    ensures FoundIn(found[i := true]) == FoundIn(found) + {i}
  {
  }

  /** One validator per schema version, used for one message after another; its `found`
    * buffer is never cleared between messages but at the start of each. */
  class JsonValidator {
    ghost const fields: seq<Field>
    const checks: seq<FieldCheck>
    const fieldNames: map<string, nat>
    const found: array<bool>

    ghost predicate Valid() {
      ChecksOf(checks, fieldNames, fields) && found.Length == |checks|
    }

    constructor (fields: seq<Field>)
      ensures Valid() && this.fields == fields && fresh(found)
    {
      hide CheckTypeOf;
      var cs: seq<FieldCheck>, names: map<string, nat> := [], map[];
      for i := 0 to |fields|
        invariant |cs| == i && forall j :: 0 <= j < i ==>
          cs[j] == FieldCheck(fields[j].name, CheckTypeOf(fields[j].kind))
        invariant forall j :: 0 <= j < i ==> fields[j].name in names
        invariant forall n :: n in names ==> names[n] < i && cs[names[n]].name == n
      {
        cs := cs + [FieldCheck(fields[i].name, CheckTypeOf(fields[i].kind))];
        names := names[fields[i].name := i];
      }
      this.fields, checks, fieldNames := fields, cs, names;
      found := new bool[|cs|];
    }

    /** The iteration over the members. */
    method ForEach(v: Value) returns (err: Option<Error>, remaining: int)
      requires Valid() && forall n :: n in fieldNames ==> fieldNames[n] < |checks|
      modifies found
      ensures var seen := Scan(checks, fieldNames, Members(v), {}, |checks|);
        && (err.None? <==> seen.ok)
        && (seen.ok ==> FoundIn(found[..]) == seen.found && remaining == seen.remaining)
    {
      hide ChecksOf, ValidateType, FoundIn;
      for i := 0 to found.Length
        invariant forall j :: 0 <= j < i ==> !found[j]
      {
        found[i] := false;
      }
      NoneFound(found[..]);
      var ms := Members(v);
      remaining := |checks|;
      assert ms[0..] == ms;
      for k := 0 to |ms|
        invariant Scan(checks, fieldNames, ms, {}, |checks|) ==
          Scan(checks, fieldNames, ms[k..], FoundIn(found[..]), remaining)
      {
        assert ms[k..][1..] == ms[k + 1..];
        if ms[k].name in fieldNames {
          var i := fieldNames[ms[k].name];
          if !ValidateType(checks[i].checkType, ms[k].value) {
            return Some(WrongType(checks[i].name)), remaining;
          }
          FoundMore(found[..], i);
          found[i] := true;
          remaining := remaining - 1;
          if remaining == 0 {
            return None, remaining;
          }
        }
      }
      return None, remaining;
    }

    /** Accepts exactly what the simple check accepts, whatever was validated before. */
    method Validate(v: Value) returns (err: Option<Error>)
      requires Valid()
      modifies found
      ensures (forall n :: n in fieldNames ==> fieldNames[n] < |checks|) &&
        (err.None? <==> OnePass(checks, fieldNames, v))
      ensures DistinctNames(fields) && NoneTwice(Members(v), Names(fields)) ==> (err.None? <==> Conforms(fields, v))
      ensures DistinctNames(fields) && err.None? && Unharmed(fields, NamesOf(Members(v))) ==> Conforms(fields, v)
    {
      hide ChecksOf, ValidateType, Scan, Conforms, DistinctNames, NoneTwice, Names, Unharmed;
      AcceptedMayConform(checks, fieldNames, fields, v);
      IndexInRange(checks, fieldNames, fields);
      if DistinctNames(fields) && NoneTwice(Members(v), Names(fields)) {
        OnePassConforms(checks, fieldNames, fields, v);
      }
      if !v.Object? && !v.Array? {
        return Some(InvalidMessage);
      }
      var remaining;
      err, remaining := ForEach(v);
      if err.Some? || remaining == 0 {
        return;
      }
      for i := 0 to |checks|
        invariant forall j :: 0 <= j < i ==> found[j] || FallbackOk(checks[j], v)
      {
        if found[i] {
          continue;
        }
        var check, value := checks[i], None;
        if '.' in check.name {
          value := Literal(v, check.name);
          if value.None? {
            value := Nested(v, check.name);
          }
        }
        if value.None? {
          return Some(Missing(check.name));
        }
        if !ValidateType(check.checkType, value.value) {
          return Some(WrongType(check.name));
        }
      }
      return None;
    }
  }

  lemma NoneFound(found: seq<bool>)
    requires forall i :: 0 <= i < |found| ==> !found[i]
    ensures FoundIn(found) == {}
  {
  }

  // ----- Schema evolution and lookup -----

  /** The type a schema gives a name; of repeated names the last one counts. */
  function TypeIn(fields: seq<Field>, name: string): Option<string> {
    if fields == [] then None
    else if fields[|fields| - 1].name == name then Some(fields[|fields| - 1].kind)
    else TypeIn(fields[..|fields| - 1], name)
  }

  predicate Extends(newer: seq<Field>, older: seq<Field>) {
    forall i :: 0 <= i < |older| ==>
      && TypeIn(newer, older[i].name).Some?
      && NormalizeToBasicKafkaType(TypeIn(newer, older[i].name).value) == NormalizeToBasicKafkaType(older[i].kind)
  }

  /** Names the fields of the previous schema that are gone or changed type. */
  method ValidateSchemaToSchema(newer: seq<Field>, older: seq<Field>) returns (errs: seq<Error>)
    ensures errs == [] <==> Extends(newer, older)
  {
    hide NormalizeToBasicKafkaType;
    var kinds: map<string, string> := map[];
    for i := 0 to |newer|
      invariant forall n: string :: TypeIn(newer[..i], n) == if n in kinds then Some(kinds[n]) else None
    {
      assert newer[..i + 1][..i] == newer[..i];
      kinds := kinds[newer[i].name := newer[i].kind];
    }
    assert newer[..|newer|] == newer;
    errs := [];
    for i := 0 to |older|
      invariant errs == [] <==> Extends(newer, older[..i])
    {
      assert forall n: string :: TypeIn(newer, n) == if n in kinds then Some(kinds[n]) else None;
      if older[i].name !in kinds {
        errs := errs + [Missing(older[i].name)];
      } else if NormalizeToBasicKafkaType(kinds[older[i].name]) != NormalizeToBasicKafkaType(older[i].kind) {
        errs := errs + [WrongType(older[i].name)];
      }
    }
    assert older[..|older|] == older;
  }

  lemma {:induction false} TypeInIsAField(fields: seq<Field>, name: string)
    requires TypeIn(fields, name).Some?
    ensures exists i :: 0 <= i < |fields| && fields[i] == Field(name, TypeIn(fields, name).value)
  {
    var n := |fields| - 1;
    if fields[n].name != name {
      TypeInIsAField(fields[..n], name);
      var i :| 0 <= i < n && fields[..n][i] == Field(name, TypeIn(fields, name).value);
      assert fields[i] == fields[..n][i];
    }
  }

  /** An accepted evolution loses no message: what conforms to the new schema conforms to the
    * previous one. */
  lemma EvolutionKeepsMessages(newer: seq<Field>, older: seq<Field>, v: Value)
    requires Extends(newer, older) && Conforms(newer, v)
    ensures Conforms(older, v)
  {
    hide NormalizeToBasicKafkaType, ValidateType, TypeIn;
    forall k | 0 <= k < |older| ensures FieldOk(older[k], v) {
      TypeInIsAField(newer, older[k].name);
      var i :| 0 <= i < |newer| && newer[i] == Field(older[k].name, TypeIn(newer, older[k].name).value);
      assert FieldOk(newer[i], v);
    }
  }

  lemma {:induction false} FieldHasType(fields: seq<Field>, i: nat)
    requires i < |fields|
    ensures TypeIn(fields, fields[i].name).Some?
  {
    var n := |fields| - 1;
    if i < n {
      FieldHasType(fields[..n], i);
    }
  }

  /** A chain of accepted evolutions is an evolution, if no schema repeats a name. */
  lemma EvolutionsCompose(newest: seq<Field>, newer: seq<Field>, older: seq<Field>)
    requires Extends(newest, newer) && Extends(newer, older) && DistinctNames(newer)
    ensures Extends(newest, older)
  {
    hide NormalizeToBasicKafkaType, TypeIn;
    forall k | 0 <= k < |older|
      ensures TypeIn(newest, older[k].name).Some?
      ensures NormalizeToBasicKafkaType(TypeIn(newest, older[k].name).value) == NormalizeToBasicKafkaType(older[k].kind)
    {
      TypeInIsAField(newer, older[k].name);
      var i :| 0 <= i < |newer| && newer[i] == Field(older[k].name, TypeIn(newer, older[k].name).value);
      assert TypeIn(newest, newer[i].name).Some?;
    }
  }

  /** Schema.Get: the value of a field of the schema, looked up as the validator did. */
  method SchemaGet(fields: seq<Field>, key: string, v: Value) returns (r: Option<Value>)
    ensures r == if key in Names(fields) then FieldValue(v, key) else None
    ensures Conforms(fields, v) ==> (r.Some? <==> key in Names(fields))
  {
    var exists_ := false;
    for i := 0 to |fields|
      invariant exists_ <==> exists j :: 0 <= j < i && fields[j].name == key
    {
      if fields[i].name == key {
        exists_ := true;
        break;
      }
    }
    if exists_ && Conforms(fields, v) {
      AcceptedFieldsAreFound(fields, v, key);
    }
    r := if exists_ then FieldValue(v, key) else None;
  }
}
