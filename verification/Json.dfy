/** JSON values with ordered members, and the lookup of a possibly dotted field name. Field
  * names are plain: no path metacharacters other than the dot, no array indices. */
module Json {
  import opened Texts
  import opened Wrappers

  datatype Value =
    | Null
    | Bool(b: bool)
    | Number(literal: string)
    | Text(text: string)
    | Array(items: seq<Value>)
    | Object(members: seq<Member>)

  datatype Member = Member(name: string, value: Value)

  /** What is iterated at the top level. */
  function Members(v: Value): seq<Member> {
    if v.Object? then v.members else []
  }

  /** The value at a path: the first member in order under which the rest of the path exists. */
  function Get(v: Value, path: seq<string>): Option<Value>
    requires path != []
    decreases v, 0
  {
    if v.Object? then GetIn(v.members, path) else None
  }

  function GetIn(members: seq<Member>, path: seq<string>): Option<Value>
    requires path != []
    decreases members, 1
  {
    if members == [] then None
    else if members[0].name != path[0] then GetIn(members[1..], path)
    else if |path| == 1 then Some(members[0].value)
    else match Get(members[0].value, path[1..])
      case Some(found) => Some(found)
      case None => GetIn(members[1..], path)
  }

  function Literal(v: Value, name: string): Option<Value> {
    Get(v, [name])
  }

  function Nested(v: Value, name: string): Option<Value> {
    Get(v, Split(name, '.'))
  }

  /** The literal key first, then, for dotted names, the nested path. */
  function FieldValue(v: Value, name: string): Option<Value> {
    if '.' in name && Literal(v, name).Some? then Literal(v, name) else Nested(v, name)
  }

  /** For a name without dots the path is the name. */
  lemma PlainField(v: Value, name: string)
    requires '.' !in name
    ensures FieldValue(v, name) == Literal(v, name)
  {
    SplitWord(name, '.');
  }

  ghost predicate Occurs(members: seq<Member>, name: string) {
    exists i :: 0 <= i < |members| && members[i].name == name
  }

  /** No two members share one of the given names. */
  ghost predicate NoneTwice(members: seq<Member>, names: set<string>) {
    forall i, j :: 0 <= i < j < |members| && members[i].name in names ==> members[i].name != members[j].name
  }

  lemma OccursFirst(members: seq<Member>, name: string)
    requires members != []
    ensures Occurs(members, name) <==> members[0].name == name || Occurs(members[1..], name)
  {
    if Occurs(members, name) && members[0].name != name {
      var i :| 0 <= i < |members| && members[i].name == name;
      assert members[1..][i - 1].name == name;
    }
    if Occurs(members[1..], name) {
      var i :| 0 <= i < |members[1..]| && members[1..][i].name == name;
      assert members[i + 1].name == name;
    }
  }

  lemma {:induction false} LiteralIn(members: seq<Member>, name: string)
    ensures GetIn(members, [name]).Some? <==> Occurs(members, name)
  {
    if members != [] {
      OccursFirst(members, name);
      LiteralIn(members[1..], name);
    }
  }

  /** The literal lookup finds the first member of that name. */
  lemma {:induction false} LiteralAt(members: seq<Member>, k: nat)
    requires k < |members| && forall j :: 0 <= j < k ==> members[j].name != members[k].name
    ensures GetIn(members, [members[k].name]) == Some(members[k].value)
  {
    if k > 0 {
      LiteralAt(members[1..], k - 1);
    }
  }

  /** Where names are not repeated, the member of a name is what the lookup finds. */
  lemma MemberIsLiteral(v: Value, names: set<string>, k: nat)
    requires NoneTwice(Members(v), names) && k < |Members(v)| && Members(v)[k].name in names
    ensures Literal(v, Members(v)[k].name) == Some(Members(v)[k].value)
  {
    LiteralAt(Members(v), k);
  }

  lemma LiteralOccurs(v: Value, name: string)
    ensures Literal(v, name).Some? <==> Occurs(Members(v), name)
  {
    LiteralIn(Members(v), name);
  }

  /** Under members that are no objects with members of their own there are no nested fields. */
  lemma {:induction false} NothingNested(members: seq<Member>, path: seq<string>)
    requires |path| >= 2 && forall i :: 0 <= i < |members| ==> Members(members[i].value) == []
    ensures GetIn(members, path).None?
  {
    if members != [] {
      assert Get(members[0].value, path[1..]).None?;
      NothingNested(members[1..], path);
    }
  }
}
