/** The mapping of a JSON message to a row: cached column metadata, one pass over the members
  * and a fallback for what it did not fill, against a lookup column by column. */
module Mapper {
  import opened Json
  import opened Validator
  import opened Wrappers

  datatype Mapping = Mapping(sourceField: string, sourceType: string, destinationField: string, destinationType: string)

  /** A cell as the driver takes it; nil is NULL. */
  datatype Cell = Nil | EmptyMap | Cell(text: string)

  datatype Converted = To(cell: Cell) | Fails

  /** ConvertValueFromJson, whatever its tables say. */
  type Convert = (string, string, Value) -> Converted

  datatype ColumnInfo = ColumnInfo(idx: nat, columnType: string, sourceField: string, sourceType: string)

  datatype ColumnMetadata = ColumnMetadata(columns: seq<string>, lookup: map<string, ColumnInfo>)

  // ----- Sorted keys -----

  predicate Less(a: string, b: string) {
    if b == "" then false
    else if a == "" then true
    else a[0] < b[0] || (a[0] == b[0] && Less(a[1..], b[1..]))
  }

  lemma {:induction false} LessIsTotal(a: string, b: string)
    ensures a == b || Less(a, b) || Less(b, a)
    ensures !(Less(a, b) && Less(b, a)) && (a == b ==> !Less(a, b))
  {
    if a != "" && b != "" {
      LessIsTotal(a[1..], b[1..]);
      assert a == [a[0]] + a[1..] && b == [b[0]] + b[1..];
    }
  }

  lemma {:induction false} LessIsTransitive(a: string, b: string, c: string)
    requires Less(a, b) && Less(b, c)
    ensures Less(a, c)
  {
    if a != "" && a[0] == b[0] == c[0] {
      LessIsTransitive(a[1..], b[1..], c[1..]);
    }
  }

  predicate Sorted(s: seq<string>) {
    forall i, j :: 0 <= i < j < |s| ==> Less(s[i], s[j])
  }

  ghost predicate SortsTo(s: seq<string>, keys: set<string>) {
    Sorted(s) && (forall k :: k in keys <==> k in s)
  }

  /** There is one way to sort a set of keys. */
  lemma {:induction false} SortedUnique(s: seq<string>, t: seq<string>, keys: set<string>)
    requires SortsTo(s, keys) && SortsTo(t, keys)
    ensures s == t
  {
    assert (s == [] || s[0] in keys) && (t == [] || t[0] in keys);
    if s != [] && t != [] {
      var i :| 0 <= i < |t| && t[i] == s[0];
      var j :| 0 <= j < |s| && s[j] == t[0];
      LessIsTotal(s[0], t[0]);
      RestSorts(s, keys);
      RestSorts(t, keys);
      SortedUnique(s[1..], t[1..], keys - {s[0]});
      assert s == [s[0]] + s[1..] && t == [t[0]] + t[1..];
    }
  }

  lemma RestSorts(s: seq<string>, keys: set<string>)
    requires s != [] && SortsTo(s, keys)
    ensures SortsTo(s[1..], keys - {s[0]})
  {
    var rest := s[1..];
    assert forall i :: 0 <= i < |rest| ==> rest[i] == s[i + 1];
    forall k ensures k in keys - {s[0]} <==> k in rest {
      if k in rest {
        var i :| 0 <= i < |rest| && rest[i] == k;
        LessIsTotal(s[0], s[i + 1]);
      }
      if k in s && k != s[0] {
        var i :| 0 <= i < |s| && s[i] == k;
        assert rest[i - 1] == k;
      }
    }
  }

  /** sort.Strings over the keys of a map, which come in any order. */
  method SortKeys(keys: set<string>) returns (s: seq<string>)
    ensures SortsTo(s, keys)
  {
    s := [];
    var todo := keys;
    while todo != {}
      invariant todo <= keys && SortsTo(s, keys - todo)
      decreases |todo|
    {
      var k :| k in todo;
      var i := 0;
      while i < |s| && Less(s[i], k)
        invariant i <= |s| && forall j :: 0 <= j < i ==> Less(s[j], k)
      {
        i := i + 1;
      }
      Inserted(s, keys - todo, k, i);
      assert keys - (todo - {k}) == keys - todo + {k};
      s, todo := s[..i] + [k] + s[i..], todo - {k};
    }
  }

  lemma Inserted(s: seq<string>, keys: set<string>, k: string, i: nat)
    requires SortsTo(s, keys) && k !in keys && i <= |s|
    requires (forall j :: 0 <= j < i ==> Less(s[j], k)) && (i < |s| ==> !Less(s[i], k))
    ensures SortsTo(s[..i] + [k] + s[i..], keys + {k})
  {
    var t := s[..i] + [k] + s[i..];
    forall j | i <= j < |s| ensures Less(k, s[j]) {
      assert s[i] in s && s[i] in keys;
      LessIsTotal(s[i], k);
      if i < j {
        LessIsTransitive(k, s[i], s[j]);
      }
    }
    forall x ensures x in keys + {k} <==> x in t {
      if x in s {
        var j :| 0 <= j < |s| && s[j] == x;
        assert t[if j < i then j else j + 1] == x;
      }
      assert t[i] == k;
    }
  }

  // ----- Rows -----

  /** The mappings of a configuration in the order of its keys. */
  function Columns(config: map<string, Mapping>, keys: seq<string>): (cols: seq<Mapping>)
    requires forall i :: 0 <= i < |keys| ==> keys[i] in config
    ensures |cols| == |keys|
  {
    seq(|keys|, i requires 0 <= i < |keys| => config[keys[i]])
  }

  ghost predicate DistinctSources(cols: seq<Mapping>) {
    forall i, j :: 0 <= i < j < |cols| ==> cols[i].sourceField != cols[j].sourceField
  }

  /** No later column has the same source. Of mappings that share a source only the last one's
    * column is ever filled. */
  ghost predicate Live(cols: seq<Mapping>, i: nat) {
    i < |cols| && forall j :: i < j < |cols| ==> cols[j].sourceField != cols[i].sourceField
  }

  lemma LiveUnique(cols: seq<Mapping>, i: nat, j: nat)
    requires Live(cols, i) && Live(cols, j) && cols[i].sourceField == cols[j].sourceField
    ensures i == j
  {
  }

  ghost function Sources(cols: seq<Mapping>): set<string> {
    set i | 0 <= i < |cols| :: cols[i].sourceField
  }

  function Absent(columnType: string): Cell {
    if "Map(" <= columnType then EmptyMap else Nil
  }

  /** One cell: look the field up and convert it; an absent map is empty, not NULL. */
  function CellOf(m: Mapping, convert: Convert, v: Value): Converted {
    match FieldValue(v, m.sourceField)
    case Some(x) => convert(m.destinationType, NormalizeToBasicKafkaType(m.sourceType), x)
    case None => To(Absent(m.destinationType))
  }

  /** The row, column by column. */
  ghost function RowOf(cols: seq<Mapping>, convert: Convert, v: Value): Option<seq<Cell>> {
    if exists i :: 0 <= i < |cols| && CellOf(cols[i], convert, v).Fails? then None
    else Some(seq(|cols|, i requires 0 <= i < |cols| =>
      if CellOf(cols[i], convert, v).To? then CellOf(cols[i], convert, v).cell else Nil))
  }

  ghost predicate IsMetadata(md: ColumnMetadata, cols: seq<Mapping>) {
    && |md.columns| == |cols|
    && (forall i :: 0 <= i < |cols| ==> md.columns[i] == cols[i].destinationField && cols[i].sourceField in md.lookup)
    && (forall s :: s in md.lookup ==> InfoOk(md.lookup[s], cols, s))
  }

  ghost predicate InfoOk(info: ColumnInfo, cols: seq<Mapping>, s: string) {
    && info.idx < |cols| && Live(cols, info.idx) && cols[info.idx].sourceField == s && info.sourceField == s
    && info.columnType == cols[info.idx].destinationType &&
      info.sourceType == NormalizeToBasicKafkaType(cols[info.idx].sourceType)
  }

  /** The value of the last member of a name, which is the one the pass leaves. */
  function LastIn(members: seq<Member>, name: string): Option<Value> {
    if members == [] then None
    else if members[|members| - 1].name == name then Some(members[|members| - 1].value)
    else LastIn(members[..|members| - 1], name)
  }

  function Converts(m: Mapping, convert: Convert, x: Value): Converted {
    convert(m.destinationType, NormalizeToBasicKafkaType(m.sourceType), x)
  }

  /** What the members so far leave in one column. */
  function LastCell(m: Mapping, convert: Convert, members: seq<Member>): Converted {
    match LastIn(members, m.sourceField)
    case Some(x) => Converts(m, convert, x)
    case None => To(Nil)
  }

  /** What pass and fallback together leave in one column. */
  function PassCell(m: Mapping, convert: Convert, v: Value): Converted {
    if LastCell(m, convert, Members(v)) == To(Nil) then CellOf(m, convert, v) else LastCell(m, convert, Members(v))
  }

  ghost predicate MemberFails(cols: seq<Mapping>, convert: Convert, m: Member) {
    exists i :: 0 <= i < |cols| && Live(cols, i) && cols[i].sourceField == m.name &&
      Converts(cols[i], convert, m.value).Fails?
  }

  ghost predicate SomeMemberFails(cols: seq<Mapping>, convert: Convert, members: seq<Member>) {
    exists k :: 0 <= k < |members| && MemberFails(cols, convert, members[k])
  }

  /** The cell as the code makes it; of a column whose source a later one shares nothing. */
  ghost function Made(cols: seq<Mapping>, convert: Convert, v: Value, i: nat): Converted
    requires i < |cols|
  {
    if Live(cols, i) then PassCell(cols[i], convert, v) else To(Nil)
  }

  /** The row as the code makes it, for any columns and any message. */
  ghost function PassRow(cols: seq<Mapping>, convert: Convert, v: Value): Option<seq<Cell>> {
    if SomeMemberFails(cols, convert, Members(v)) then None
    else if exists i :: 0 <= i < |cols| && Made(cols, convert, v, i).Fails? then None
    else Some(seq(|cols|, i requires 0 <= i < |cols| =>
      if Made(cols, convert, v, i).To? then Made(cols, convert, v, i).cell else Nil))
  }

  // ----- Pass against lookup -----

  lemma FieldIsLiteral(v: Value, name: string)
    requires Literal(v, name).Some?
    ensures FieldValue(v, name) == Literal(v, name)
  {
    if '.' !in name {
      PlainField(v, name);
    }
  }

  lemma {:induction false} LastOccurs(members: seq<Member>, name: string)
    ensures LastIn(members, name).None? ==> !Occurs(members, name)
    ensures LastIn(members, name).Some? ==>
      exists k :: 0 <= k < |members| && members[k].name == name && LastIn(members, name) == Some(members[k].value)
  {
    if members != [] {
      var n := |members| - 1;
      LastOccurs(members[..n], name);
      if members[n].name != name {
        assert forall k :: 0 <= k < n ==> members[..n][k] == members[k];
        if Occurs(members, name) {
          var k :| 0 <= k < |members| && members[k].name == name;
          assert members[..n][k].name == name;
        }
        if LastIn(members[..n], name).Some? {
          var k :| 0 <= k < n && members[..n][k].name == name &&
            LastIn(members[..n], name) == Some(members[..n][k].value);
          assert members[k] == members[..n][k];
        }
      }
    }
  }

  /** Where no source is repeated, the last member of a source is the literal one. */
  lemma LastIsLiteral(v: Value, names: set<string>, name: string)
    requires NoneTwice(Members(v), names) && name in names
    ensures LastIn(Members(v), name) == Literal(v, name)
  {
    LastOccurs(Members(v), name);
    LiteralOccurs(v, name);
    if LastIn(Members(v), name).Some? {
      var k :| 0 <= k < |Members(v)| && Members(v)[k].name == name &&
        LastIn(Members(v), name) == Some(Members(v)[k].value);
      MemberIsLiteral(v, names, k);
    }
  }

  lemma SourceListed(cols: seq<Mapping>, i: nat)
    requires i < |cols|
    ensures cols[i].sourceField in Sources(cols)
  {
  }

  lemma SameCell(cols: seq<Mapping>, convert: Convert, v: Value, i: nat)
    requires NoneTwice(Members(v), Sources(cols)) && i < |cols|
    ensures PassCell(cols[i], convert, v) == CellOf(cols[i], convert, v)
  {
    hide NormalizeToBasicKafkaType, NoneTwice, Sources;
    SourceListed(cols, i);
    LastIsLiteral(v, Sources(cols), cols[i].sourceField);
    if Literal(v, cols[i].sourceField).Some? {
      FieldIsLiteral(v, cols[i].sourceField);
    }
  }

  /** Without repeated sources, in the columns or in the message, pass and fallback give the row
    * of the lookup. */
  lemma PassIsLookup(cols: seq<Mapping>, convert: Convert, v: Value)
    requires DistinctSources(cols) && NoneTwice(Members(v), Sources(cols))
    ensures PassRow(cols, convert, v) == RowOf(cols, convert, v)
  {
    hide NoneTwice, Sources, PassCell, CellOf;
    forall i: nat | i < |cols| ensures Made(cols, convert, v, i) == CellOf(cols[i], convert, v) {
      SameCell(cols, convert, v, i);
    }
    if SomeMemberFails(cols, convert, Members(v)) {
      var k :| 0 <= k < |Members(v)| && MemberFails(cols, convert, Members(v)[k]);
      FailingMember(cols, convert, v, k);
    } else if RowOf(cols, convert, v).Some? {
      assert PassRow(cols, convert, v).value == RowOf(cols, convert, v).value;
    }
  }

  lemma FailingMember(cols: seq<Mapping>, convert: Convert, v: Value, k: nat)
    requires NoneTwice(Members(v), Sources(cols)) && k < |Members(v)| && MemberFails(cols, convert, Members(v)[k])
    ensures exists i :: 0 <= i < |cols| && CellOf(cols[i], convert, v).Fails?
  {
    hide NormalizeToBasicKafkaType;
    var m := Members(v)[k];
    var i :| 0 <= i < |cols| && Live(cols, i) && cols[i].sourceField == m.name &&
      Converts(cols[i], convert, m.value).Fails?;
    SourceListed(cols, i);
    MemberIsLiteral(v, Sources(cols), k);
    FieldIsLiteral(v, m.name);
    assert CellOf(cols[i], convert, v).Fails?;
  }

  ghost predicate RowsAgree(cols: seq<Mapping>, names: seq<string>, convert: Convert, v: Value) {
    NamesOf(Members(v)) == names ==> PassRow(cols, convert, v) == RowOf(cols, convert, v)
  }

  ghost predicate NoSourceTwice(cols: seq<Mapping>, names: seq<string>) {
    forall i, j :: 0 <= i < j < |names| && names[i] in Sources(cols) ==> names[i] != names[j]
  }

  lemma SameNames(members: seq<Member>, cols: seq<Mapping>)
    ensures NoneTwice(members, Sources(cols)) <==> NoSourceTwice(cols, NamesOf(members))
  {
    var names := NamesOf(members);
    assert forall i :: 0 <= i < |members| ==> names[i] == members[i].name;
  }

  /** Members of these names, each with another text. */
  function Numbered(names: seq<string>): (ms: seq<Member>)
    ensures NamesOf(ms) == names && forall j :: 0 <= j < |ms| ==> ms[j] == Member(names[j], Text(seq(j, _ => 'x')))
  {
    seq(|names|, j requires 0 <= j < |names| => Member(names[j], Text(seq(j, _ => 'x'))))
  }

  function TextOf(columnType: string, sourceType: string, x: Value): Converted {
    To(if x.Text? then Cell(x.text) else Nil)
  }

  lemma {:induction false} LastIsLast(members: seq<Member>, name: string, k: nat)
    requires k < |members| && members[k].name == name
    ensures exists j :: k <= j < |members| && members[j].name == name && LastIn(members, name) == Some(members[j].value)
  {
    var n := |members| - 1;
    if members[n].name != name {
      LastIsLast(members[..n], name, k);
      var j :| k <= j < n && members[..n][j].name == name && LastIn(members[..n], name) == Some(members[..n][j].value);
      assert members[j] == members[..n][j];
    }
  }

  lemma {:induction false} FirstIsFirst(members: seq<Member>, name: string, k: nat)
    requires k < |members| && members[k].name == name
    ensures exists j :: 0 <= j <= k && members[j].name == name && GetIn(members, [name]) == Some(members[j].value)
  {
    if members[0].name != name {
      FirstIsFirst(members[1..], name, k - 1);
      var j :| 0 <= j <= k - 1 && members[1..][j].name == name &&
        GetIn(members[1..], [name]) == Some(members[1..][j].value);
      assert members[j + 1] == members[1..][j];
    }
  }

  lemma RepeatedSourceCells(m: Mapping, names: seq<string>, i: nat, j: nat)
    requires i < j < |names| && names[i] == names[j] == m.sourceField
    ensures var v := Object(Numbered(names));
      CellOf(m, TextOf, v).To? && PassCell(m, TextOf, v).To? && CellOf(m, TextOf, v).cell != PassCell(m, TextOf, v).cell
  {
    hide NormalizeToBasicKafkaType;
    var ms := Numbered(names);
    FirstIsFirst(ms, names[i], i);
    LastIsLast(ms, names[i], j);
    var first :| 0 <= first <= i && ms[first].name == names[i] && GetIn(ms, [names[i]]) == Some(ms[first].value);
    var last :| j <= last < |ms| && ms[last].name == names[i] && LastIn(ms, names[i]) == Some(ms[last].value);
    FieldIsLiteral(Object(ms), names[i]);
    assert |ms[first].value.text| == first && |ms[last].value.text| == last;
  }

  lemma LastOfItsSource(cols: seq<Mapping>, i: nat) returns (c: nat)
    requires i < |cols|
    ensures Live(cols, c) && cols[c].sourceField == cols[i].sourceField
    decreases |cols| - i
  {
    if Live(cols, i) {
      c := i;
    } else {
      var j :| i < j < |cols| && cols[j].sourceField == cols[i].sourceField;
      c := LastOfItsSource(cols, j);
    }
  }

  /** With a repeated source the pass shows the last member and the lookup the first. */
  lemma RepeatedSourceDiffers(cols: seq<Mapping>, names: seq<string>, i: nat, j: nat)
    requires i < j < |names| && names[i] == names[j] && names[i] in Sources(cols)
    ensures !RowsAgree(cols, names, TextOf, Object(Numbered(names)))
  {
    var v := Object(Numbered(names));
    var some :| 0 <= some < |cols| && cols[some].sourceField == names[i];
    var c := LastOfItsSource(cols, some);
    RepeatedSourceCells(cols[c], names, i, j);
    hide CellOf, PassCell, Numbered;
    assert RowOf(cols, TextOf, v).Some? ==> RowOf(cols, TextOf, v).value[c] == CellOf(cols[c], TextOf, v).cell;
    assert PassRow(cols, TextOf, v).Some? ==> PassRow(cols, TextOf, v).value[c] == PassCell(cols[c], TextOf, v).cell;
    NothingFails(cols, v);
  }

  lemma NothingFails(cols: seq<Mapping>, v: Value)
    ensures RowOf(cols, TextOf, v).Some?
  {
    hide NormalizeToBasicKafkaType;
  }

  /** Whatever the values and the conversion are, the fast row is the row of the lookup only if
    * the member names repeat no source field, and then for columns of distinct sources. */
  lemma PassIsLookupIff(cols: seq<Mapping>, names: seq<string>)
    ensures (forall convert: Convert, v: Value :: RowsAgree(cols, names, convert, v)) ==> NoSourceTwice(cols, names)
    ensures DistinctSources(cols) && NoSourceTwice(cols, names) ==>
      forall convert: Convert, v: Value :: RowsAgree(cols, names, convert, v)
  {
    hide PassRow, RowOf, NoneTwice, Sources, DistinctSources;
    if NoSourceTwice(cols, names) && DistinctSources(cols) {
      forall convert: Convert, v: Value ensures RowsAgree(cols, names, convert, v) {
        if NamesOf(Members(v)) == names {
          SameNames(Members(v), cols);
          PassIsLookup(cols, convert, v);
        }
      }
    } else if !NoSourceTwice(cols, names) {
      var i, j :| 0 <= i < j < |names| && names[i] in Sources(cols) && names[i] == names[j];
      RepeatedSourceDiffers(cols, names, i, j);
    }
  }

  // ----- Missing fields -----

  /** A column whose field is nowhere in the message is an empty map if it is a map, else NULL. */
  ghost predicate MissingAreEmpty(cols: seq<Mapping>, v: Value, row: seq<Cell>)
    requires |row| == |cols|
  {
    forall i :: 0 <= i < |cols| && Live(cols, i) && FieldValue(v, cols[i].sourceField).None? ==>
      row[i] == if |cols[i].destinationType| >= 4 && cols[i].destinationType[..4] == "Map(" then EmptyMap else Nil
  }

  lemma PassFillsMissing(cols: seq<Mapping>, convert: Convert, v: Value)
    requires PassRow(cols, convert, v).Some?
    ensures MissingAreEmpty(cols, v, PassRow(cols, convert, v).value)
  {
    hide NormalizeToBasicKafkaType, SomeMemberFails;
    forall i | 0 <= i < |cols| && Live(cols, i) && FieldValue(v, cols[i].sourceField).None?
      ensures Made(cols, convert, v, i) == To(Absent(cols[i].destinationType))
    {
      var name := cols[i].sourceField;
      if Literal(v, name).Some? {
        FieldIsLiteral(v, name);
      }
      LiteralOccurs(v, name);
      LastOccurs(Members(v), name);
    }
  }

  // ----- Columns that share a source -----

  ghost predicate PlainRowsAgree(cols: seq<Mapping>, convert: Convert, v: Value) {
    NoneTwice(Members(v), Sources(cols)) ==> PassRow(cols, convert, v) == RowOf(cols, convert, v)
  }

  /** A column whose source a later one shares stays empty where the lookup finds a value. */
  lemma SharedSourceDiffers(cols: seq<Mapping>, i: nat, j: nat)
    requires i < j < |cols| && cols[i].sourceField == cols[j].sourceField
    ensures !PlainRowsAgree(cols, TextOf, Object([Member(cols[i].sourceField, Text("x"))]))
  {
    hide NormalizeToBasicKafkaType;
    var name := cols[i].sourceField;
    var ms := [Member(name, Text("x"))];
    var v := Object(ms);
    FirstIsFirst(ms, name, 0);
    FieldIsLiteral(v, name);
    assert CellOf(cols[i], TextOf, v) == To(Cell("x"));
    assert Made(cols, TextOf, v, i) == To(Nil);
    NothingFails(cols, v);
    hide CellOf, Made;
    assert RowOf(cols, TextOf, v).value[i] == Cell("x");
    assert PassRow(cols, TextOf, v).Some? ==> PassRow(cols, TextOf, v).value[i] == Nil;
  }

  /** Over all values that repeat no source and all conversions, the row is that of the lookup
    * exactly when no two columns share a source. */
  lemma RowIsLookupIff(cols: seq<Mapping>)
    ensures (forall convert: Convert, v: Value :: PlainRowsAgree(cols, convert, v)) <==> DistinctSources(cols)
  {
    hide PassRow, RowOf, NoneTwice, Sources;
    if DistinctSources(cols) {
      forall convert: Convert, v: Value ensures PlainRowsAgree(cols, convert, v) {
        if NoneTwice(Members(v), Sources(cols)) {
          PassIsLookup(cols, convert, v);
        }
      }
    } else {
      var i, j :| 0 <= i < j < |cols| && cols[i].sourceField == cols[j].sourceField;
      SharedSourceDiffers(cols, i, j);
    }
  }

  /** Two columns of one field: only the second is filled. */
  lemma TwoColumnsOfOneField()
    ensures var cols := [Mapping("a", "string", "first", "String"), Mapping("a", "string", "second", "String")];
      var v := Object([Member("a", Text("x"))]);
      && PassRow(cols, TextOf, v) == Some([Nil, Cell("x")])
      && RowOf(cols, TextOf, v) == Some([Cell("x"), Cell("x")])
  {
    hide NormalizeToBasicKafkaType;
    var cols := [Mapping("a", "string", "first", "String"), Mapping("a", "string", "second", "String")];
    var ms := [Member("a", Text("x"))];
    var v := Object(ms);
    FirstIsFirst(ms, "a", 0);
    LastIsLast(ms, "a", 0);
    FieldIsLiteral(v, "a");
    assert cols[1].sourceField == cols[0].sourceField;
    assert !Live(cols, 0) && Live(cols, 1);
    forall i: nat | i < 2
      ensures CellOf(cols[i], TextOf, v) == To(Cell("x"))
      ensures Made(cols, TextOf, v, i) == To(if i == 0 then Nil else Cell("x"))
    {
    }
    hide CellOf, Made;
    assert RowOf(cols, TextOf, v).value == [Cell("x"), Cell("x")];
    assert PassRow(cols, TextOf, v).value == [Nil, Cell("x")];
  }

  // ----- The pass -----

  /** The columns hold what the members so far leave, and none of these failed to convert. */
  ghost predicate FilledBy(values: seq<Cell>, cols: seq<Mapping>, convert: Convert, members: seq<Member>) {
    && |values| == |cols|
    && (forall i :: 0 <= i < |cols| ==>
      if Live(cols, i) then LastCell(cols[i], convert, members) == To(values[i]) else values[i] == Nil)
    && !SomeMemberFails(cols, convert, members)
  }

  lemma LastNext(members: seq<Member>, m: Member, name: string)
    ensures LastIn(members + [m], name) == if m.name == name then Some(m.value) else LastIn(members, name)
  {
    assert (members + [m])[..|members|] == members;
  }

  /** A member that is no column's source changes nothing. */
  lemma FilledPast(values: seq<Cell>, cols: seq<Mapping>, convert: Convert, members: seq<Member>, m: Member)
    requires FilledBy(values, cols, convert, members) && forall i :: 0 <= i < |cols| ==> cols[i].sourceField != m.name
    ensures FilledBy(values, cols, convert, members + [m])
  {
    hide Converts, Live;
    forall i | 0 <= i < |cols|
      ensures LastCell(cols[i], convert, members + [m]) == LastCell(cols[i], convert, members)
    {
      LastNext(members, m, cols[i].sourceField);
    }
    assert forall k :: 0 <= k < |members| ==> (members + [m])[k] == members[k];
  }

  /** A member that is a column's source fills the last column of that source. */
  lemma FilledOne(values: seq<Cell>, cols: seq<Mapping>, convert: Convert, members: seq<Member>, m: Member, k: nat,
                  cell: Cell)
    requires FilledBy(values, cols, convert, members) && Live(cols, k) && cols[k].sourceField == m.name
    requires Converts(cols[k], convert, m.value) == To(cell)
    ensures FilledBy(values[k := cell], cols, convert, members + [m])
  {
    hide Converts;
    forall i: nat | i < |cols|
      ensures if Live(cols, i) then LastCell(cols[i], convert, members + [m]) == To(values[k := cell][i])
        else values[k := cell][i] == Nil
    {
      LastNext(members, m, cols[i].sourceField);
      if i != k && Live(cols, i) && cols[i].sourceField == m.name {
        LiveUnique(cols, i, k);
      }
    }
    assert forall k :: 0 <= k < |members| ==> (members + [m])[k] == members[k];
    assert !MemberFails(cols, convert, m) by {
      forall i | 0 <= i < |cols| && Live(cols, i) && cols[i].sourceField == m.name ensures i == k {
        LiveUnique(cols, i, k);
      }
    }
  }

  class KafkaToClickHouseMapper {
    const convert: Convert
    var columnsMetadata: map<string, ColumnMetadata>
    /** The columns of the first configuration each schema version was mapped with. */
    ghost var columnsOf: map<string, seq<Mapping>>

    constructor (convert: Convert)
      ensures this.convert == convert && Valid() && columnsOf == map[]
    {
      this.convert := convert;
      columnsMetadata, columnsOf := map[], map[];
    }

    ghost predicate Valid()
      reads this
    {
      && columnsMetadata.Keys == columnsOf.Keys
      && forall s :: s in columnsOf ==> IsMetadata(columnsMetadata[s], columnsOf[s])
    }

    /** The metadata of a schema version; only the first configuration counts. */
    method Metadata(version: string, config: map<string, Mapping>) returns (md: ColumnMetadata)
      requires Valid()
      modifies this
      ensures Valid() && version in columnsOf && md == columnsMetadata[version]
      ensures version in old(columnsOf) ==> columnsOf == old(columnsOf)
      ensures version !in old(columnsOf) ==>
        exists keys: seq<string> :: SortsTo(keys, config.Keys) &&
          columnsOf == old(columnsOf)[version := Columns(config, keys)]
    {
      hide SortsTo, NormalizeToBasicKafkaType, InfoOk;
      if version in columnsMetadata {
        return columnsMetadata[version];
      }
      var keys := SortKeys(config.Keys);
      KeysInMap(keys, config);
      ghost var cols := Columns(config, keys);
      var columns, lookup := [], map[];
      for idx := 0 to |keys|
        invariant Valid() && columnsMetadata == old(columnsMetadata) && columnsOf == old(columnsOf)
        invariant |columns| == idx
        invariant forall i :: 0 <= i < idx ==> columns[i] == cols[i].destinationField && cols[i].sourceField in lookup
        invariant forall s :: s in lookup ==> InfoOk(lookup[s], cols[..idx], s)
      {
        var field := config[keys[idx]];
        OneMoreColumn(cols, idx, lookup);
        columns := columns + [field.destinationField];
        lookup := lookup[field.sourceField := ColumnInfo(idx, field.destinationType, field.sourceField,
          NormalizeToBasicKafkaType(field.sourceType))];
      }
      assert cols[..|keys|] == cols;
      md := ColumnMetadata(columns, lookup);
      columnsMetadata := columnsMetadata[version := md];
      columnsOf := columnsOf[version := cols];
    }

    /** One pass over the members. */
    method FillFromMembers(values: array<Cell>, md: ColumnMetadata, v: Value, ghost cols: seq<Mapping>)
      returns (ok: bool)
      requires IsMetadata(md, cols) && values.Length == |cols| && forall i :: 0 <= i < values.Length ==>
        values[i] == Nil
      modifies values
      ensures if ok then FilledBy(values[..], cols, convert, Members(v)) else SomeMemberFails(cols, convert, Members(v))
    {
      hide NormalizeToBasicKafkaType, FilledBy, IsMetadata, Live;
      var ms := Members(v);
      NothingFilled(values[..], cols, convert);
      assert ms[..0] == [];
      for k := 0 to |ms|
        invariant FilledBy(values[..], cols, convert, ms[..k])
      {
        assert ms[..k + 1] == ms[..k] + [ms[k]];
        if ms[k].name in md.lookup {
          var info := md.lookup[ms[k].name];
          InfoIn(md, cols, ms[k].name);
          var converted := convert(info.columnType, info.sourceType, ms[k].value);
          assert converted == Converts(cols[info.idx], convert, ms[k].value);
          if converted.Fails? {
            assert MemberFails(cols, convert, ms[k]);
            return false;
          }
          FilledOne(values[..], cols, convert, ms[..k], ms[k], info.idx, converted.cell);
          values[info.idx] := converted.cell;
        } else {
          NoSource(md, cols, ms[k].name);
          FilledPast(values[..], cols, convert, ms[..k], ms[k]);
        }
      }
      assert ms[..|ms|] == ms;
      ok := true;
    }

    /** The fallback for the columns that the pass left empty, in any order. */
    method FillRest(values: array<Cell>, md: ColumnMetadata, v: Value, ghost cols: seq<Mapping>) returns (ok: bool)
      requires IsMetadata(md, cols) && values.Length == |cols| && FilledBy(values[..], cols, convert, Members(v))
      modifies values
      ensures if ok then PassRow(cols, convert, v) == Some(values[..]) else PassRow(cols, convert, v).None?
    {
      hide NormalizeToBasicKafkaType, IsMetadata, PassRow, FilledBy, PassCell, LastCell, SomeMemberFails, ColumnState;
      var todo := md.lookup.Keys;
      SourcesCovered(md, cols);
      AllWaiting(values[..], cols, convert, v);
      while todo != {}
        invariant todo <= md.lookup.Keys
        invariant forall i :: 0 <= i < |cols| ==>
          ColumnState(cols, convert, v, i, values[i], cols[i].sourceField in todo)
        decreases |todo|
      {
        var s :| s in todo;
        var info := md.lookup[s];
        InfoIn(md, cols, s);
        CellSettles(cols, convert, v, info.idx, values[info.idx]);
        OthersWait(cols, convert, v, info.idx);
        todo := todo - {s};
        if values[info.idx] != Nil {
          continue;
        }
        var value := FieldValue(v, info.sourceField);
        if value.Some? {
          var converted := convert(info.columnType, info.sourceType, value.value);
          if converted.Fails? {
            FailingCell(cols, convert, v, info.idx);
            return false;
          }
          values[info.idx] := converted.cell;
        } else if "Map(" <= info.columnType {
          values[info.idx] := EmptyMap;
        }
      }
      RowFilled(values[..], cols, convert, v);
      ok := true;
    }

    /** The row of a message is the row computed column by column, for the columns of the
      * first configuration of its schema version in the order of that configuration's keys. */
    method Map(v: Value, version: string, config: map<string, Mapping>) returns (r: Option<seq<Cell>>)
      requires Valid()
      modifies this
      ensures Valid() && version in columnsOf
      ensures version in old(columnsOf) ==> columnsOf == old(columnsOf)
      ensures version !in old(columnsOf) ==>
        exists keys: seq<string> :: SortsTo(keys, config.Keys) &&
          columnsOf == old(columnsOf)[version := Columns(config, keys)]
      ensures r.Some? ==> |r.value| == |columnsOf[version]|
      ensures r == PassRow(columnsOf[version], convert, v)
      ensures r.Some? ==> MissingAreEmpty(columnsOf[version], v, r.value)
      ensures DistinctSources(columnsOf[version]) && NoneTwice(Members(v), Sources(columnsOf[version])) ==>
        r == RowOf(columnsOf[version], convert, v)
    {
      hide IsMetadata, DistinctSources, NoneTwice, RowOf, SortsTo, FilledBy, PassCell, SomeMemberFails;
      hide MissingAreEmpty;
      var md := Metadata(version, config);
      ghost var cols := columnsOf[version];
      MetadataSize(md, cols);
      if PassRow(cols, convert, v).Some? {
        PassFillsMissing(cols, convert, v);
      }
      if DistinctSources(cols) && NoneTwice(Members(v), Sources(cols)) {
        PassIsLookup(cols, convert, v);
      }
      var values := new Cell[|md.columns|](_ => Nil);
      var ok := FillFromMembers(values, md, v, cols);
      if !ok {
        return None;
      }
      ok := FillRest(values, md, v, cols);
      if !ok {
        return None;
      }
      return Some(values[..]);
    }

    /** The column names in the order of the cells. */
    method GetColumnNames(version: string) returns (r: Option<seq<string>>)
      requires Valid()
      ensures r.Some? <==> version in columnsOf
      ensures r.Some? ==>
        |r.value| == |columnsOf[version]| && forall i :: 0 <= i < |r.value| ==>
          r.value[i] == columnsOf[version][i].destinationField
    {
      if version !in columnsMetadata {
        return None;
      }
      return Some(columnsMetadata[version].columns);
    }
  }

  /** The state of one cell during the fallback: as the pass left it, or final. */
  ghost predicate ColumnState(cols: seq<Mapping>, convert: Convert, v: Value, i: nat, cell: Cell, waiting: bool)
    requires i < |cols|
  {
    if !Live(cols, i) then cell == Nil
    else if waiting then LastCell(cols[i], convert, Members(v)) == To(cell)
    else PassCell(cols[i], convert, v) == To(cell)
  }

  /** The column is settled once its empty cell was looked up; a filled one is settled already. */
  lemma CellSettles(cols: seq<Mapping>, convert: Convert, v: Value, i: nat, cell: Cell)
    requires Live(cols, i) && ColumnState(cols, convert, v, i, cell, true)
    ensures cell != Nil ==> ColumnState(cols, convert, v, i, cell, false)
    ensures cell == Nil ==> PassCell(cols[i], convert, v) == CellOf(cols[i], convert, v)
    ensures cell == Nil ==>
      forall c :: CellOf(cols[i], convert, v) == To(c) ==> ColumnState(cols, convert, v, i, c, false)
  {
    hide LastCell, CellOf;
  }

  /** No other column that is ever filled has this source. */
  lemma OthersWait(cols: seq<Mapping>, convert: Convert, v: Value, i: nat)
    requires Live(cols, i)
    ensures forall j, cell :: 0 <= j < |cols| && j != i && cols[j].sourceField == cols[i].sourceField ==>
      ColumnState(cols, convert, v, j, cell, true) == ColumnState(cols, convert, v, j, cell, false)
  {
    hide LastCell, PassCell;
  }

  lemma OneMoreColumn(cols: seq<Mapping>, idx: nat, lookup: map<string, ColumnInfo>)
    requires idx < |cols| && forall s :: s in lookup ==> InfoOk(lookup[s], cols[..idx], s)
    ensures forall s :: s in lookup && s != cols[idx].sourceField ==> InfoOk(lookup[s], cols[..idx + 1], s)
    ensures var m := cols[idx];
      InfoOk(ColumnInfo(idx, m.destinationType, m.sourceField, NormalizeToBasicKafkaType(m.sourceType)),
        cols[..idx + 1], m.sourceField)
  {
    hide NormalizeToBasicKafkaType;
    forall s | s in lookup && s != cols[idx].sourceField ensures InfoOk(lookup[s], cols[..idx + 1], s) {
      var i, before, after := lookup[s].idx, cols[..idx], cols[..idx + 1];
      assert after[i] == before[i];
      forall j | i < j < |after| ensures after[j].sourceField != after[i].sourceField {
        assert j < idx ==> after[j] == before[j];
      }
    }
  }

  lemma KeysInMap(keys: seq<string>, config: map<string, Mapping>)
    requires SortsTo(keys, config.Keys)
    ensures forall i :: 0 <= i < |keys| ==> keys[i] in config
  {
  }

  lemma InfoIn(md: ColumnMetadata, cols: seq<Mapping>, s: string)
    requires IsMetadata(md, cols) && s in md.lookup
    ensures InfoOk(md.lookup[s], cols, s) && Live(cols, md.lookup[s].idx) && s in Sources(cols)
  {
    assert cols[md.lookup[s].idx].sourceField in Sources(cols);
  }

  lemma NoSource(md: ColumnMetadata, cols: seq<Mapping>, s: string)
    requires IsMetadata(md, cols) && s !in md.lookup
    ensures forall i :: 0 <= i < |cols| ==> cols[i].sourceField != s
  {
  }

  lemma SourcesCovered(md: ColumnMetadata, cols: seq<Mapping>)
    requires IsMetadata(md, cols)
    ensures forall i :: 0 <= i < |cols| ==> cols[i].sourceField in md.lookup
  {
  }

  lemma MetadataSize(md: ColumnMetadata, cols: seq<Mapping>)
    requires IsMetadata(md, cols)
    ensures |md.columns| == |cols|
  {
  }

  lemma NothingFilled(values: seq<Cell>, cols: seq<Mapping>, convert: Convert)
    requires |values| == |cols| && forall i :: 0 <= i < |values| ==> values[i] == Nil
    ensures FilledBy(values, cols, convert, [])
  {
  }

  lemma FailingCell(cols: seq<Mapping>, convert: Convert, v: Value, i: nat)
    requires Live(cols, i) && PassCell(cols[i], convert, v).Fails?
    ensures PassRow(cols, convert, v).None?
  {
    hide PassCell;
    assert Made(cols, convert, v, i).Fails?;
  }

  lemma AllWaiting(values: seq<Cell>, cols: seq<Mapping>, convert: Convert, v: Value)
    requires FilledBy(values, cols, convert, Members(v))
    ensures |values| == |cols| && forall i :: 0 <= i < |cols| ==> ColumnState(cols, convert, v, i, values[i], true)
    ensures !SomeMemberFails(cols, convert, Members(v))
  {
  }

  lemma RowFilled(values: seq<Cell>, cols: seq<Mapping>, convert: Convert, v: Value)
    requires |values| == |cols| && forall i :: 0 <= i < |cols| ==> ColumnState(cols, convert, v, i, values[i], false)
    requires !SomeMemberFails(cols, convert, Members(v))
    ensures PassRow(cols, convert, v) == Some(values)
  {
    hide PassCell, SomeMemberFails;
    assert forall i :: 0 <= i < |cols| ==> Made(cols, convert, v, i) == To(values[i]);
    assert PassRow(cols, convert, v).value == values;
  }
}
