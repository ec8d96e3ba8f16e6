/**
 Tagged serialization of ledger records (backend/import_approval/serialization.py:66-170).

 The tables of record types and enums, the text form of timestamps and the checks of record
 constructors are parameters; constructors are taken to keep their fields unchanged.
 */
module Codec {
  import opened Graph

  datatype Value =
    | Nothing
    | Flag(flag: bool)
    | Whole(number: int)
    | Words(text: string)
    | Moment(instant: int)
    | Member(enumName: string, member: string)
    | Tuple(items: seq<Value>)
    | Instance(typeName: string, fields: map<string, Value>)
    | Dict(entries: map<string, Value>)
    /** A naive timestamp, a float, a list, or any other unsupported object. */
    | Unsupported

  datatype Tree =
    | NullNode
    | BoolNode(flag: bool)
    | IntNode(number: int)
    | TextNode(text: string)
    | ListNode(nodes: seq<Tree>)
    | ObjectNode(members: map<string, Tree>)
    | FloatNode

  datatype Codec = Codec(
    types: map<string, set<string>>, enums: map<string, set<string>>,
    render: int -> string, scan: string -> Option<int>, accepts: (string, map<string, Value>) -> bool)

  /** Timestamps written in the canonical form are read back. */
  ghost predicate Lawful(c: Codec) { forall t :: c.scan(c.render(t)) == Some(t) }

  const DATETIME := "$datetime"
  const TUPLE := "$tuple"
  const ENUM := "$enum"
  const VALUE := "value"
  const TYPE := "$type"
  const FIELDS := "fields"

  predicate Reserved(keys: set<string>) {
    keys == {DATETIME} || keys == {TUPLE} || keys == {ENUM, VALUE} || keys == {TYPE, FIELDS}
  }

  // ---------- Encode and decode ----------

  /** A dictionary comprehension that fails if any entry fails. */
  function Collect<V>(keys: set<string>, f: string --> Option<V>): (r: Option<map<string, V>>)
    requires forall k :: k in keys ==> f.requires(k)
    ensures r.Some? <==> forall k :: k in keys ==> f(k).Some?
    ensures r.Some? ==> r.value.Keys == keys && forall k :: k in keys ==> f(k) == Some(r.value[k])
  {
    if forall k :: k in keys ==> f(k).Some? then Some(map k | k in keys :: f(k).value) else None
  }

  /** A list comprehension that fails if any item fails. */
  function CollectItems<V>(n: nat, f: nat --> Option<V>): (r: Option<seq<V>>)
    requires forall i: nat :: i < n ==> f.requires(i)
    ensures r.Some? <==> forall i: nat :: i < n ==> f(i).Some?
    ensures r.Some? ==> |r.value| == n && forall i: nat :: i < n ==> f(i) == Some(r.value[i])
  {
    if forall i: nat :: i < n ==> f(i).Some? then Some(seq(n, i requires 0 <= i < n => f(i).value)) else None
  }

  function Encode(c: Codec, v: Value): Option<Tree> {
    match v
    case Nothing => Some(NullNode)
    case Flag(b) => Some(BoolNode(b))
    case Whole(n) => Some(IntNode(n))
    case Words(s) => Some(TextNode(s))
    case Moment(t) => Some(ObjectNode(map[DATETIME := TextNode(c.render(t))]))
    case Member(name, value) =>
      if name in c.enums then Some(ObjectNode(map[ENUM := TextNode(name), VALUE := TextNode(value)])) else None
    case Tuple(items) =>
      (match CollectItems(|items|, (i: nat) requires i < |items| => Encode(c, items[i]))
       case Some(nodes) => Some(ObjectNode(map[TUPLE := ListNode(nodes)]))
       case None => None)
    case Instance(name, fields) =>
      (match Collect(fields.Keys, k requires k in fields => Encode(c, fields[k]))
       case Some(fs) => if name in c.types then Some(ObjectNode(map[TYPE := TextNode(name), FIELDS := ObjectNode(fs)])) else None
       case None => None)
    case Dict(entries) =>
      (match Collect(entries.Keys, k requires k in entries => Encode(c, entries[k]))
       case Some(m) => Some(ObjectNode(m))
       case None => None)
    case Unsupported => None
  }

  function DecodeMoment(c: Codec, x: Tree): Option<Value> {
    match x
    case TextNode(s) =>
      (match c.scan(s)
       case Some(t) => if c.render(t) == s then Some(Moment(t)) else None
       case None => None)
    case _ => None
  }

  function DecodeMember(c: Codec, name: Tree, value: Tree): Option<Value> {
    if name.TextNode? && value.TextNode? && name.text in c.enums && value.text in c.enums[name.text]
    then Some(Member(name.text, value.text)) else None
  }

  function DecodeTuple(items: Option<seq<Value>>): Option<Value> {
    if items.Some? then Some(Tuple(items.value)) else None
  }

  function DecodeInstance(c: Codec, name: Tree, fields: Option<map<string, Value>>): Option<Value> {
    if name.TextNode? && name.text in c.types && fields.Some? && fields.value.Keys == c.types[name.text] && c.accepts(name.text, fields.value)
    then Some(Instance(name.text, fields.value)) else None
  }

  function Decode(c: Codec, x: Tree): Option<Value> {
    match x
    case NullNode => Some(Nothing)
    case BoolNode(b) => Some(Flag(b))
    case IntNode(n) => Some(Whole(n))
    case TextNode(s) => Some(Words(s))
    case ListNode(_) => None
    case FloatNode => None
    case ObjectNode(m) =>
      if m.Keys == {DATETIME} then DecodeMoment(c, m[DATETIME])
      else if m.Keys == {TUPLE} then
        match m[TUPLE] {
          case ListNode(nodes) => DecodeTuple(CollectItems(|nodes|, (i: nat) requires i < |nodes| => Decode(c, nodes[i])))
          case _ => None
        }
      else if m.Keys == {ENUM, VALUE} then DecodeMember(c, m[ENUM], m[VALUE])
      else if m.Keys == {TYPE, FIELDS} then
        match m[FIELDS] {
          case ObjectNode(fs) => DecodeInstance(c, m[TYPE], Collect(fs.Keys, k requires k in fs => Decode(c, fs[k])))
          case _ => None
        }
      else
        match Collect(m.Keys, k requires k in m => Decode(c, m[k])) {
          case Some(entries) => Some(Dict(entries))
          case None => None
        }
  }

  // ---------- Which values survive ----------

  /** What every live object satisfies: enum members exist, instances have their exact fields and passed their constructor. */
  predicate Proper(c: Codec, v: Value) {
    match v
    case Member(name, value) => name in c.enums ==> value in c.enums[name]
    case Tuple(items) => forall i :: 0 <= i < |items| ==> Proper(c, items[i])
    case Instance(name, fields) =>
      && (name in c.types ==> fields.Keys == c.types[name] && c.accepts(name, fields))
      && forall k :: k in fields ==> Proper(c, fields[k])
    case Dict(entries) => forall k :: k in entries ==> Proper(c, entries[k])
    case _ => true
  }

  /** No plain dictionary in the value has exactly a reserved key set. */
  predicate Plain(v: Value) {
    match v
    case Tuple(items) => forall i :: 0 <= i < |items| ==> Plain(items[i])
    case Instance(_, fields) => forall k :: k in fields ==> Plain(fields[k])
    case Dict(entries) => !Reserved(entries.Keys) && forall k :: k in entries ==> Plain(entries[k])
    case _ => true
  }

  // ---------- Round trips ----------

  lemma TagsDiffer()
    ensures DATETIME != TUPLE && DATETIME != ENUM && DATETIME != VALUE && DATETIME != TYPE && DATETIME != FIELDS
    ensures TUPLE != ENUM && TUPLE != VALUE && TUPLE != TYPE && TUPLE != FIELDS
    ensures ENUM != VALUE && ENUM != TYPE && ENUM != FIELDS && VALUE != TYPE && VALUE != FIELDS && TYPE != FIELDS
  {
    assert DATETIME[1] == 'd' && TUPLE[1] == 't' && TUPLE[2] == 'u' && ENUM[1] == 'e' && TYPE[1] == 't' && TYPE[2] == 'y';
  }

  lemma TagSets()
    ensures {DATETIME} != {TUPLE} && {DATETIME} != {ENUM, VALUE} && {DATETIME} != {TYPE, FIELDS}
    ensures {TUPLE} != {ENUM, VALUE} && {TUPLE} != {TYPE, FIELDS} && {ENUM, VALUE} != {TYPE, FIELDS}
  {
    TagsDiffer();
    assert DATETIME in {DATETIME} && TUPLE in {TUPLE} && ENUM in {ENUM, VALUE} && TYPE in {TYPE, FIELDS};
    assert DATETIME !in {TUPLE} && DATETIME !in {ENUM, VALUE} && DATETIME !in {TYPE, FIELDS};
    assert TUPLE !in {ENUM, VALUE} && TUPLE !in {TYPE, FIELDS} && ENUM !in {TYPE, FIELDS};
  }

  /** The list node decodes to `items` exactly when it does so item by item. */
  lemma TupleDecodes(c: Codec, nodes: seq<Tree>, items: seq<Value>)
    requires |nodes| == |items|
    ensures Decode(c, ObjectNode(map[TUPLE := ListNode(nodes)])) == Some(Tuple(items)) <==>
      forall i :: 0 <= i < |nodes| ==> Decode(c, nodes[i]) == Some(items[i])
  {
    TagSets();
    var m := map[TUPLE := ListNode(nodes)];
    assert m.Keys == {TUPLE};
    var r := CollectItems(|nodes|, (i: nat) requires i < |nodes| => Decode(c, nodes[i]));
    assert Decode(c, ObjectNode(m)) == DecodeTuple(r);
    if r.Some? && forall i :: 0 <= i < |nodes| ==> Decode(c, nodes[i]) == Some(items[i]) {
      assert r.value == items;
    }
  }

  lemma SameMap<V>(m: map<string, V>, n: map<string, V>)
    requires m.Keys == n.Keys && forall k :: k in m ==> m[k] == n[k]
    ensures m == n
  {
  }

  lemma InstanceDecodes(c: Codec, name: string, fs: map<string, Tree>, fields: map<string, Value>)
    requires fs.Keys == fields.Keys && name in c.types && fields.Keys == c.types[name] && c.accepts(name, fields)
    ensures Decode(c, ObjectNode(map[TYPE := TextNode(name), FIELDS := ObjectNode(fs)])) == Some(Instance(name, fields)) <==>
      forall k :: k in fs ==> Decode(c, fs[k]) == Some(fields[k])
  {
    TagSets();
    TagsDiffer();
    var m := map[TYPE := TextNode(name), FIELDS := ObjectNode(fs)];
    assert m.Keys == {TYPE, FIELDS};
    var r := Collect(fs.Keys, k requires k in fs => Decode(c, fs[k]));
    assert Decode(c, ObjectNode(m)) == DecodeInstance(c, TextNode(name), r);
    if r.Some? && forall k :: k in fs ==> Decode(c, fs[k]) == Some(fields[k]) {
      SameMap(r.value, fields);
    }
  }

  lemma DictDecodes(c: Codec, m: map<string, Tree>, entries: map<string, Value>)
    requires m.Keys == entries.Keys
    ensures Decode(c, ObjectNode(m)) == Some(Dict(entries)) <==>
      !Reserved(m.Keys) && forall k :: k in m ==> Decode(c, m[k]) == Some(entries[k])
  {
    if !Reserved(m.Keys) {
      var r := Collect(m.Keys, k requires k in m => Decode(c, m[k]));
      assert Decode(c, ObjectNode(m)) == match r { case Some(es) => Some(Dict(es)) case None => None };
      if r.Some? && forall k :: k in m ==> Decode(c, m[k]) == Some(entries[k]) {
        SameMap(r.value, entries);
      }
    }
  }

  lemma TagsDecode(c: Codec, t: int, name: string, value: string)
    ensures Decode(c, ObjectNode(map[DATETIME := TextNode(c.render(t))])) == DecodeMoment(c, TextNode(c.render(t)))
    ensures Decode(c, ObjectNode(map[ENUM := TextNode(name), VALUE := TextNode(value)])) == DecodeMember(c, TextNode(name), TextNode(value))
  {
    TagSets();
    TagsDiffer();
    var m, n := map[DATETIME := TextNode(c.render(t))], map[ENUM := TextNode(name), VALUE := TextNode(value)];
    assert m.Keys == {DATETIME} && n.Keys == {ENUM, VALUE};
  }

  /** An encodable value is read back exactly when no plain dictionary in it has a reserved key set. */
  lemma {:induction false} EncodeThenDecode(c: Codec, v: Value)
    requires Lawful(c) && Proper(c, v) && Encode(c, v).Some?
    ensures Decode(c, Encode(c, v).value) == Some(v) <==> Plain(v)
  {
    match v
    case Moment(t) => TagsDecode(c, t, "", "");
    case Member(name, value) => TagsDecode(c, 0, name, value);
    case Tuple(items) =>
      var f := (i: nat) requires i < |items| => Encode(c, items[i]);
      var nodes := CollectItems(|items|, f).value;
      forall i | 0 <= i < |items| ensures Decode(c, nodes[i]) == Some(items[i]) <==> Plain(items[i]) {
        assert f(i) == Encode(c, items[i]);
        EncodeThenDecode(c, items[i]);
      }
      TupleDecodes(c, nodes, items);
    case Instance(name, fields) =>
      var fs := Collect(fields.Keys, k requires k in fields => Encode(c, fields[k])).value;
      forall k | k in fields ensures Decode(c, fs[k]) == Some(fields[k]) <==> Plain(fields[k]) {
        EncodeThenDecode(c, fields[k]);
      }
      InstanceDecodes(c, name, fs, fields);
    case Dict(entries) =>
      var m := Collect(entries.Keys, k requires k in entries => Encode(c, entries[k])).value;
      forall k | k in entries ensures Decode(c, m[k]) == Some(entries[k]) <==> Plain(entries[k]) {
        EncodeThenDecode(c, entries[k]);
      }
      DictDecodes(c, m, entries);
    case _ =>
  }

  // ---------- The other way ----------

  lemma TupleEncodes(c: Codec, nodes: seq<Tree>, items: seq<Value>)
    requires |nodes| == |items| && forall i :: 0 <= i < |items| ==> Encode(c, items[i]) == Some(nodes[i])
    ensures Encode(c, Tuple(items)) == Some(ObjectNode(map[TUPLE := ListNode(nodes)]))
  {
    var r := CollectItems(|items|, (i: nat) requires i < |items| => Encode(c, items[i]));
    assert r.value == nodes;
  }

  lemma InstanceEncodes(c: Codec, name: string, fs: map<string, Tree>, fields: map<string, Value>)
    requires fs.Keys == fields.Keys && name in c.types && forall k :: k in fields ==> Encode(c, fields[k]) == Some(fs[k])
    ensures Encode(c, Instance(name, fields)) == Some(ObjectNode(map[TYPE := TextNode(name), FIELDS := ObjectNode(fs)]))
  {
    var r := Collect(fields.Keys, k requires k in fields => Encode(c, fields[k]));
    SameMap(r.value, fs);
  }

  lemma DictEncodes(c: Codec, m: map<string, Tree>, entries: map<string, Value>)
    requires m.Keys == entries.Keys && forall k :: k in entries ==> Encode(c, entries[k]) == Some(m[k])
    ensures Encode(c, Dict(entries)) == Some(ObjectNode(m))
  {
    var r := Collect(entries.Keys, k requires k in entries => Encode(c, entries[k]));
    SameMap(r.value, m);
  }

  /** Every accepted tree is the encoding of the value it decodes to, and that value is plain. */
  lemma {:induction false} DecodeThenEncode(c: Codec, x: Tree)
    requires Decode(c, x).Some?
    ensures Encode(c, Decode(c, x).value) == Some(x) && Plain(Decode(c, x).value) && Proper(c, Decode(c, x).value)
    decreases x, 1
  {
    if x.ObjectNode? {
      var m := x.members;
      TagSets();
      TagsDiffer();
      if m.Keys == {DATETIME} {
        assert m == map[DATETIME := m[DATETIME]];
      } else if m.Keys == {TUPLE} {
        TupleBack(c, m);
      } else if m.Keys == {ENUM, VALUE} {
        assert m == map[ENUM := m[ENUM], VALUE := m[VALUE]];
      } else if m.Keys == {TYPE, FIELDS} {
        InstanceBack(c, m);
      } else {
        DictBack(c, m);
      }
    }
  }

  lemma TupleBack(c: Codec, m: map<string, Tree>)
    requires m.Keys == {TUPLE} && Decode(c, ObjectNode(m)).Some?
    ensures var v := Decode(c, ObjectNode(m)).value; Encode(c, v) == Some(ObjectNode(m)) && Plain(v) && Proper(c, v)
    decreases ObjectNode(m), 0
  {
    TagSets();
    var nodes := m[TUPLE].nodes;
    assert m == map[TUPLE := ListNode(nodes)];
    var f := (i: nat) requires i < |nodes| => Decode(c, nodes[i]);
    assert Decode(c, ObjectNode(m)) == DecodeTuple(CollectItems(|nodes|, f));
    var items := Decode(c, ObjectNode(m)).value.items;
    forall i | 0 <= i < |nodes|
      ensures Decode(c, nodes[i]) == Some(items[i]) && Encode(c, items[i]) == Some(nodes[i]) && Plain(items[i]) && Proper(c, items[i])
    {
      assert f(i) == Decode(c, nodes[i]);
      DecodeThenEncode(c, nodes[i]);
    }
    TupleEncodes(c, nodes, items);
  }

  lemma InstanceBack(c: Codec, m: map<string, Tree>)
    requires m.Keys == {TYPE, FIELDS} && Decode(c, ObjectNode(m)).Some?
    ensures var v := Decode(c, ObjectNode(m)).value; Encode(c, v) == Some(ObjectNode(m)) && Plain(v) && Proper(c, v)
    decreases ObjectNode(m), 0
  {
    TagSets();
    var v, fs := Decode(c, ObjectNode(m)).value, m[FIELDS].members;
    assert m == map[TYPE := TextNode(v.typeName), FIELDS := ObjectNode(fs)];
    forall k | k in fs
      ensures k in v.fields && Encode(c, v.fields[k]) == Some(fs[k]) && Plain(v.fields[k]) && Proper(c, v.fields[k])
    {
      DecodeThenEncode(c, fs[k]);
    }
    InstanceEncodes(c, v.typeName, fs, v.fields);
  }

  lemma DictBack(c: Codec, m: map<string, Tree>)
    requires !Reserved(m.Keys) && Decode(c, ObjectNode(m)).Some?
    ensures var v := Decode(c, ObjectNode(m)).value; Encode(c, v) == Some(ObjectNode(m)) && Plain(v) && Proper(c, v)
    decreases ObjectNode(m), 0
  {
    var es := Decode(c, ObjectNode(m)).value.entries;
    forall k | k in m
      ensures k in es && Encode(c, es[k]) == Some(m[k]) && Plain(es[k]) && Proper(c, es[k])
    {
      DecodeThenEncode(c, m[k]);
    }
    DictEncodes(c, m, es);
  }

  // ---------- The written form ----------

  /** Values without parts are written under these tags. */
  lemma AtomForms(c: Codec, b: bool, n: int, text: string, t: int, name: string, member: string)
    ensures Encode(c, Nothing) == Some(NullNode) && Encode(c, Flag(b)) == Some(BoolNode(b)) && Encode(c, Whole(n)) == Some(IntNode(n))
    ensures Encode(c, Words(text)) == Some(TextNode(text)) && Encode(c, Unsupported) == None
    ensures Encode(c, Moment(t)) == Some(ObjectNode(map["$datetime" := TextNode(c.render(t))]))
    ensures Encode(c, Member(name, member)) ==
      if name in c.enums then Some(ObjectNode(map["$enum" := TextNode(name), "value" := TextNode(member)])) else None
  {
  }

  /** A tuple is written as the tagged list of what its items are written as, if all of them are. */
  lemma TupleForm(c: Codec, items: seq<Value>)
    ensures Encode(c, Tuple(items)).Some? <==> forall i :: 0 <= i < |items| ==> Encode(c, items[i]).Some?
    ensures Encode(c, Tuple(items)).Some? ==>
      var x := Encode(c, Tuple(items)).value;
      && x.ObjectNode? && x.members.Keys == {"$tuple"} && x.members["$tuple"].ListNode?
      && var nodes := x.members["$tuple"].nodes;
         |nodes| == |items| && forall i :: 0 <= i < |items| ==> Encode(c, items[i]) == Some(nodes[i])
  {
    var f := (i: nat) requires i < |items| => Encode(c, items[i]);
    assert forall i: nat :: i < |items| ==> f(i) == Encode(c, items[i]);
    var r := CollectItems(|items|, f);
    assert r.Some? <==> forall i: nat :: i < |items| ==> Encode(c, items[i]).Some?;
    if r.Some? {
      assert forall i: nat :: i < |items| ==> f(i) == Some(r.value[i]);
    }
  }

  /** A record is written as its type name and the written form of each field. */
  lemma InstanceForm(c: Codec, name: string, fields: map<string, Value>)
    ensures Encode(c, Instance(name, fields)).Some? <==> name in c.types && forall k :: k in fields ==> Encode(c, fields[k]).Some?
    ensures Encode(c, Instance(name, fields)).Some? ==>
      var x := Encode(c, Instance(name, fields)).value;
      && x.ObjectNode? && x.members.Keys == {"$type", "fields"} && x.members["$type"] == TextNode(name) && x.members["fields"].ObjectNode?
      && var fs := x.members["fields"].members;
         fs.Keys == fields.Keys && forall k :: k in fields ==> Encode(c, fields[k]) == Some(fs[k])
  {
    var f := k requires k in fields => Encode(c, fields[k]);
    assert forall k :: k in fields ==> f(k) == Encode(c, fields[k]);
    var r := Collect(fields.Keys, f);
  }

  /** A plain dictionary is written entry by entry, untagged. */
  lemma DictForm(c: Codec, entries: map<string, Value>)
    ensures Encode(c, Dict(entries)).Some? <==> forall k :: k in entries ==> Encode(c, entries[k]).Some?
    ensures Encode(c, Dict(entries)).Some? ==>
      var x := Encode(c, Dict(entries)).value;
      && x.ObjectNode? && x.members.Keys == entries.Keys && forall k :: k in entries ==> Encode(c, entries[k]) == Some(x.members[k])
  {
    var f := k requires k in entries => Encode(c, entries[k]);
    assert forall k :: k in entries ==> f(k) == Encode(c, entries[k]);
    var r := Collect(entries.Keys, f);
  }
}
