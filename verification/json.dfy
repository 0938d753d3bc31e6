/** Optional values: a JavaScript property read that finds nothing yields `None`
    (the model of `undefined`). */
module Options {

  datatype Option<+T> = None | Some(value: T)
}

/** JSON documents as the JavaScript code sees them after parsing, with
    JavaScript's notion of truthiness and of property access. */
module JsonValues {
  import opened Options

  /** A JSON value. Objects keep their members as an ordered association list so
      that a traversal over them has a fixed order; numbers are integers. */
  datatype Json =
    | JNull
    | JBool(b: bool)
    | JNum(n: int)
    | JStr(s: string)
    | JArr(items: seq<Json>)
    | JObj(fields: seq<Member>)

  /** One `key: value` member of an object. */
  datatype Member = Member(key: string, value: Json)

  /** True iff some member of the association list is named `key`. */
  predicate HasKey(fields: seq<Member>, key: string) {
    exists i :: 0 <= i < |fields| && fields[i].key == key
  }

  /** The value bound to `key`: the first binding; JavaScript objects have
      unique keys, so for them it is the only one. */
  function Lookup(fields: seq<Member>, key: string): (r: Option<Json>)
    ensures r.Some? <==> HasKey(fields, key)
    decreases fields
  {
    if |fields| == 0 then None
    else if fields[0].key == key then Some(fields[0].value)
    else
      assert forall i :: 1 <= i < |fields| ==> fields[1..][i - 1] == fields[i];
      Lookup(fields[1..], key)
  }

  /** A found value is that of the first member with the name. */
  lemma {:induction false} LookupFindsFirst(fields: seq<Member>, key: string)
    requires HasKey(fields, key)
    ensures exists i :: 0 <= i < |fields| && fields[i] == Member(key, Lookup(fields, key).value)
                        && !HasKey(fields[..i], key)
    decreases fields
  {
    if fields[0].key != key {
      var r := Lookup(fields, key).value;
      var i :| 0 <= i < |fields| && fields[i].key == key;
      assert fields[1..][i - 1] == fields[i];
      LookupFindsFirst(fields[1..], key);
      var k :| 0 <= k < |fields[1..]| && fields[1..][k] == Member(key, r) && !HasKey(fields[1..][..k], key);
      assert fields[..k + 1] == [fields[0]] + fields[1..][..k];
    } else {
      assert fields[..0] == [];
    }
  }

  /** `value.key` in JavaScript: only objects carry the named members here, any
      other value reads as `undefined`. */
  function Field(j: Json, key: string): Option<Json> {
    if j.JObj? then Lookup(j.fields, key) else None
  }

  /** JavaScript truthiness of a JSON value (`NaN` has no counterpart here). */
  predicate Truthy(j: Json)
    ensures !Truthy(j) <==> j == JNull || j == JBool(false) || j == JNum(0) || j == JStr("")
  {
    match j
    case JNull => false
    case JBool(b) => b
    case JNum(n) => n != 0
    case JStr(s) => s != ""
    case JArr(_) => true
    case JObj(_) => true
  }

  /** Truthiness of `value.key`, where `undefined` is falsy. */
  predicate TruthyField(j: Json, key: string) {
    Field(j, key).Some? && Truthy(Field(j, key).value)
  }

  /** `typeof value.key === 'string'`: the string held by that member, if any. */
  function StringField(j: Json, key: string): (r: Option<string>)
    ensures r.Some? <==> Field(j, key).Some? && Field(j, key).value.JStr?
    ensures r.Some? ==> Field(j, key) == Some(JStr(r.value))
  {
    match Field(j, key)
    case Some(JStr(s)) => Some(s)
    case _ => None
  }

  /** `sub` is `j` itself or a value nested anywhere inside it, through array
      elements and object member values. */
  ghost predicate Within(sub: Json, j: Json)
    decreases j
  {
    || sub == j
    || (j.JArr? && exists i :: 0 <= i < |j.items| && Within(sub, j.items[i]))
    || (j.JObj? && exists i :: 0 <= i < |j.fields| && Within(sub, j.fields[i].value))
  }

  /** Some object anywhere inside `j` has a member named `key`. */
  ghost predicate KeyOccurs(j: Json, key: string) {
    exists o :: Within(o, j) && o.JObj? && HasKey(o.fields, key)
  }
}
