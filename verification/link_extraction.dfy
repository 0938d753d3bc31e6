/** `getLinks`: find every `links` member anywhere in a schema document, flatten
    the found values by one level, drop falsy entries and keep the links that
    carry a `schema` or a `targetSchema`.

    The search itself belongs to an external property-search package whose
    order is not visible; it is modelled as a pre-order depth-first walk that
    visits object members in their order and descends into every value,
    including the values of `links` members. */
module LinkExtraction {
  import opened Options
  import opened JsonValues

  const LinksKey: string := "links"
  const SchemaKey: string := "schema"
  const TargetSchemaKey: string := "targetSchema"

  /* ---------------------------------------------------------------------- */
  /* The search                                                              */
  /* ---------------------------------------------------------------------- */

  /** The values of all `links` members inside `j`, in pre-order: an object's
      own `links` value comes before anything found inside its members. */
  function LinkValues(j: Json): (r: seq<Json>)
    ensures j.JObj? && HasKey(j.fields, LinksKey) ==> r != [] && Some(r[0]) == Lookup(j.fields, LinksKey)
    decreases j
  {
    match j
    case JArr(items) => ItemsLinkValues(items)
    case JObj(fields) => OwnLinks(fields) + FieldsLinkValues(fields)
    case _ => []
  }

  /** The `links` value of one object, if it has that member. */
  function OwnLinks(fields: seq<Member>): (r: seq<Json>)
    ensures |r| <= 1
    ensures r != [] <==> HasKey(fields, LinksKey)
    ensures r != [] ==> Lookup(fields, LinksKey) == Some(r[0])
  {
    match Lookup(fields, LinksKey)
    case Some(v) => [v]
    case None => []
  }

  function ItemsLinkValues(items: seq<Json>): seq<Json>
    decreases items
  {
    if |items| == 0 then [] else LinkValues(items[0]) + ItemsLinkValues(items[1..])
  }

  function FieldsLinkValues(fields: seq<Member>): seq<Json>
    decreases fields
  {
    if |fields| == 0 then [] else LinkValues(fields[0].value) + FieldsLinkValues(fields[1..])
  }

  /** `v` is the `links` value of some object nested anywhere in `j`. */
  ghost predicate HeldWithin(v: Json, j: Json) {
    exists o :: Within(o, j) && o.JObj? && Lookup(o.fields, LinksKey) == Some(v)
  }

  lemma {:induction false} ItemsLinkValuesMembership(items: seq<Json>, v: Json)
    ensures v in ItemsLinkValues(items) <==> exists i :: 0 <= i < |items| && v in LinkValues(items[i])
    decreases items
  {
    if |items| > 0 {
      ItemsLinkValuesMembership(items[1..], v);
      if v in ItemsLinkValues(items[1..]) {
        var i :| 0 <= i < |items[1..]| && v in LinkValues(items[1..][i]);
        assert items[1..][i] == items[i + 1];
      }
      if exists i :: 0 <= i < |items| && v in LinkValues(items[i]) {
        var i :| 0 <= i < |items| && v in LinkValues(items[i]);
        if i > 0 {
          assert items[i] == items[1..][i - 1];
        }
      }
    }
  }

  lemma {:induction false} FieldsLinkValuesMembership(fields: seq<Member>, v: Json)
    ensures v in FieldsLinkValues(fields) <==> exists i :: 0 <= i < |fields| && v in LinkValues(fields[i].value)
    decreases fields
  {
    if |fields| > 0 {
      FieldsLinkValuesMembership(fields[1..], v);
      if v in FieldsLinkValues(fields[1..]) {
        var i :| 0 <= i < |fields[1..]| && v in LinkValues(fields[1..][i].value);
        assert fields[1..][i] == fields[i + 1];
      }
      if exists i :: 0 <= i < |fields| && v in LinkValues(fields[i].value) {
        var i :| 0 <= i < |fields| && v in LinkValues(fields[i].value);
        if i > 0 {
          assert fields[i] == fields[1..][i - 1];
        }
      }
    }
  }

  lemma {:induction false} FoundIsHeld(j: Json, v: Json)
    requires v in LinkValues(j)
    ensures HeldWithin(v, j)
    decreases j
  {
    match j
    case JArr(items) =>
      ItemsLinkValuesMembership(items, v);
      var i :| 0 <= i < |items| && v in LinkValues(items[i]);
      FoundIsHeld(items[i], v);
      var o :| Within(o, items[i]) && o.JObj? && Lookup(o.fields, LinksKey) == Some(v);
      assert Within(o, j);
    case JObj(fields) =>
      if v in OwnLinks(fields) {
        assert Within(j, j);
      } else {
        FieldsLinkValuesMembership(fields, v);
        var i :| 0 <= i < |fields| && v in LinkValues(fields[i].value);
        FoundIsHeld(fields[i].value, v);
        var o :| Within(o, fields[i].value) && o.JObj? && Lookup(o.fields, LinksKey) == Some(v);
        assert Within(o, j);
      }
  }

  lemma {:induction false} HeldIsFound(j: Json, v: Json)
    requires HeldWithin(v, j)
    ensures v in LinkValues(j)
    decreases j
  {
    var o :| Within(o, j) && o.JObj? && Lookup(o.fields, LinksKey) == Some(v);
    if o != j {
      match j
      case JArr(items) =>
        var i :| 0 <= i < |items| && Within(o, items[i]);
        HeldIsFound(items[i], v);
        ItemsLinkValuesMembership(items, v);
      case JObj(fields) =>
        var i :| 0 <= i < |fields| && Within(o, fields[i].value);
        HeldIsFound(fields[i].value, v);
        FieldsLinkValuesMembership(fields, v);
    }
  }

  /** The search finds exactly the `links` values of the objects nested in the
      document: nothing else, and none of them is missed. */
  lemma LinkValuesMembership(j: Json, v: Json)
    ensures v in LinkValues(j) <==> HeldWithin(v, j)
  {
    if v in LinkValues(j) {
      FoundIsHeld(j, v);
    }
    if HeldWithin(v, j) {
      HeldIsFound(j, v);
    }
  }

  /** The search finds nothing exactly when no object in the document has a
      `links` member. */
  lemma LinkValuesEmpty(j: Json)
    ensures LinkValues(j) == [] <==> !KeyOccurs(j, LinksKey)
  {
    if LinkValues(j) != [] {
      LinkValuesMembership(j, LinkValues(j)[0]);
    }
    if KeyOccurs(j, LinksKey) {
      var o :| Within(o, j) && o.JObj? && HasKey(o.fields, LinksKey);
      var v := Lookup(o.fields, LinksKey).value;
      LinkValuesMembership(j, v);
    }
  }

  /* ---------------------------------------------------------------------- */
  /* The search as an explicit work list                                     */
  /* ---------------------------------------------------------------------- */

  function Size(j: Json): nat
    decreases j
  {
    match j
    case JArr(items) => 1 + ItemsSize(items)
    case JObj(fields) => 1 + FieldsSize(fields)
    case _ => 1
  }

  function ItemsSize(items: seq<Json>): nat
    decreases items
  {
    if |items| == 0 then 0 else Size(items[0]) + ItemsSize(items[1..])
  }

  function FieldsSize(fields: seq<Member>): nat
    decreases fields
  {
    if |fields| == 0 then 0 else Size(fields[0].value) + FieldsSize(fields[1..])
  }

  /** The member values of an object, in order. */
  function Values(fields: seq<Member>): (vs: seq<Json>)
    ensures |vs| == |fields|
    ensures forall i :: 0 <= i < |fields| ==> vs[i] == fields[i].value
  {
    if |fields| == 0 then [] else [fields[0].value] + Values(fields[1..])
  }

  lemma {:induction false} ItemsAppend(a: seq<Json>, b: seq<Json>)
    ensures ItemsLinkValues(a + b) == ItemsLinkValues(a) + ItemsLinkValues(b)
    ensures ItemsSize(a + b) == ItemsSize(a) + ItemsSize(b)
    decreases a
  {
    if |a| > 0 {
      assert (a + b)[1..] == a[1..] + b;
      ItemsAppend(a[1..], b);
    } else {
      assert a + b == b;
    }
  }

  lemma {:induction false} FieldsAsItems(fields: seq<Member>)
    ensures FieldsLinkValues(fields) == ItemsLinkValues(Values(fields))
    ensures FieldsSize(fields) == ItemsSize(Values(fields))
    decreases fields
  {
    if |fields| > 0 {
      FieldsAsItems(fields[1..]);
      assert Values(fields)[1..] == Values(fields[1..]);
    }
  }

  /** The values a walk descends into from `j`, in order. */
  function Children(j: Json): seq<Json> {
    match j
    case JArr(items) => items
    case JObj(fields) => Values(fields)
    case _ => []
  }

  /** What visiting `j` itself contributes to the search. */
  function Own(j: Json): seq<Json> {
    if j.JObj? then OwnLinks(j.fields) else []
  }

  /** A value's result is its own contribution followed by its children's. */
  lemma Unfold(j: Json)
    ensures LinkValues(j) == Own(j) + ItemsLinkValues(Children(j))
    ensures Size(j) == 1 + ItemsSize(Children(j))
  {
    match j
    case JArr(_) =>
    case JObj(fields) => FieldsAsItems(fields);
    case _ =>
  }

  lemma Single(j: Json)
    ensures ItemsLinkValues([j]) == LinkValues(j)
    ensures ItemsSize([j]) == Size(j)
  {
    assert [j][1..] == [];
  }

  /** Visiting the first pending value contributes its own links, then
      those of its children ahead of the values still pending. */
  lemma VisitStep(j: Json, rest: seq<Json>)
    ensures ItemsLinkValues([j] + rest) == Own(j) + ItemsLinkValues(Children(j) + rest)
  {
    calc {
      ItemsLinkValues([j] + rest);
    == { ItemsAppend([j], rest); }
      ItemsLinkValues([j]) + ItemsLinkValues(rest);
    == { Single(j); Unfold(j); }
      Own(j) + ItemsLinkValues(Children(j)) + ItemsLinkValues(rest);
    == { ItemsAppend(Children(j), rest); }
      Own(j) + ItemsLinkValues(Children(j) + rest);
    }
  }

  /** Replacing the first pending value by its children shrinks the total
      size of what is pending. */
  lemma VisitShrinks(j: Json, rest: seq<Json>)
    ensures ItemsSize(Children(j) + rest) < ItemsSize([j] + rest)
  {
    ItemsAppend([j], rest);
    ItemsAppend(Children(j), rest);
    Single(j);
    Unfold(j);
  }

  /** The search written as a loop over an explicit stack of pending values,
      computing exactly the pre-order result of the recursive definition. */
  method SearchLinks(root: Json) returns (found: seq<Json>)
    ensures found == LinkValues(root)
  {
    found := [];
    var pending := [root];
    assert ItemsLinkValues(pending) == LinkValues(root) + ItemsLinkValues([]);
    while |pending| > 0
      invariant found + ItemsLinkValues(pending) == LinkValues(root)
      decreases ItemsSize(pending)
    {
      var j, rest := pending[0], pending[1..];
      assert pending == [j] + rest;
      VisitStep(j, rest);
      VisitShrinks(j, rest);
      found := found + Own(j);
      pending := Children(j) + rest;
    }
  }

  /* ---------------------------------------------------------------------- */
  /* Flatten, compact, filter                                                */
  /* ---------------------------------------------------------------------- */

  /** What one found value contributes to a one-level flatten: an array its
      elements, anything else itself. */
  function Spread(v: Json): seq<Json> {
    if v.JArr? then v.items else [v]
  }

  /** `_.flatten`: flatten by exactly one level. */
  function FlattenOnce(vs: seq<Json>): (r: seq<Json>)
    ensures forall x :: x in r <==> exists i :: 0 <= i < |vs| && x in Spread(vs[i])
    decreases vs
  {
    if |vs| == 0 then []
    else
      var r := Spread(vs[0]) + FlattenOnce(vs[1..]);
      assert forall i :: 1 <= i < |vs| ==> vs[i] == vs[1..][i - 1];
      r
  }

  /** One found value flattens to its own spread: an array's elements in
      their order and number, anything else as a single entry. */
  lemma FlattenOnceSingle(v: Json)
    ensures FlattenOnce([v]) == Spread(v)
  {
    assert [v][1..] == [];
  }

  lemma {:induction false} FlattenOnceAppend(a: seq<Json>, b: seq<Json>)
    ensures FlattenOnce(a + b) == FlattenOnce(a) + FlattenOnce(b)
    decreases a
  {
    if |a| > 0 {
      assert (a + b)[1..] == a[1..] + b;
      FlattenOnceAppend(a[1..], b);
    } else {
      assert a + b == b;
    }
  }

  /** `_.filter`: the elements satisfying `p`, in their original order. */
  function Filter(p: Json -> bool, xs: seq<Json>): (r: seq<Json>)
    ensures |r| <= |xs|
    ensures forall x :: x in r <==> x in xs && p(x)
    decreases xs
  {
    if |xs| == 0 then []
    else (if p(xs[0]) then [xs[0]] else []) + Filter(p, xs[1..])
  }

  lemma {:induction false} FilterAppend(p: Json -> bool, a: seq<Json>, b: seq<Json>)
    ensures Filter(p, a + b) == Filter(p, a) + Filter(p, b)
    decreases a
  {
    if |a| > 0 {
      assert (a + b)[1..] == a[1..] + b;
      FilterAppend(p, a[1..], b);
    } else {
      assert a + b == b;
    }
  }

  /** Filtering twice with predicates where the second implies the first is
      the same as filtering with the second alone. */
  lemma {:induction false} FilterSubsumed(p: Json -> bool, q: Json -> bool, xs: seq<Json>)
    requires forall x :: q(x) ==> p(x)
    ensures Filter(q, Filter(p, xs)) == Filter(q, xs)
    decreases xs
  {
    if |xs| > 0 {
      FilterSubsumed(p, q, xs[1..]);
      var x := xs[0];
      assert Filter(q, [x]) == (if q(x) then [x] else []) by {
        assert [x][1..] == [];
      }
      if p(x) {
        assert Filter(p, xs) == [x] + Filter(p, xs[1..]);
        FilterAppend(q, [x], Filter(p, xs[1..]));
        assert Filter(q, Filter(p, xs)) == Filter(q, [x]) + Filter(q, xs[1..]);
        assert Filter(q, xs) == (if q(x) then [x] else []) + Filter(q, xs[1..]);
      } else {
        assert !q(x);
        assert Filter(p, xs) == Filter(p, xs[1..]);
        assert Filter(q, xs) == Filter(q, xs[1..]);
      }
    }
  }

  /** The predicate `link.schema || link.targetSchema`. */
  predicate Relevant(link: Json)
    ensures Relevant(link) ==> link.JObj? && Truthy(link)
  {
    TruthyField(link, SchemaKey) || TruthyField(link, TargetSchemaKey)
  }

  /** `getLinks(schema)`. */
  function GetLinks(schema: Json): (links: seq<Json>)
    ensures forall l :: l in links ==> Relevant(l)
    ensures forall l :: l in links ==> Truthy(l)
    ensures forall l :: l in links <==> l in FlattenOnce(LinkValues(schema)) && Relevant(l)
  {
    var found := LinkValues(schema);
    if |found| == 0 then []
    else Filter(Relevant, Filter(Truthy, FlattenOnce(found)))
  }

  /** Dropping falsy entries before the relevance filter changes nothing: a
      relevant link is an object, and objects are truthy. */
  lemma CompactIsSubsumed(schema: Json)
    ensures GetLinks(schema) == Filter(Relevant, FlattenOnce(LinkValues(schema)))
  {
    FilterSubsumed(Truthy, Relevant, FlattenOnce(LinkValues(schema)));
  }

  /** A document without any `links` member yields no links. */
  lemma NoLinksKeyNoLinks(schema: Json)
    requires !KeyOccurs(schema, LinksKey)
    ensures GetLinks(schema) == []
  {
    LinkValuesEmpty(schema);
  }

  /** The search order is kept: the links of a list of documents are those of
      its first part followed by those of the rest. */
  lemma GetLinksSplit(a: seq<Json>, b: seq<Json>)
    ensures GetLinks(JArr(a + b)) == GetLinks(JArr(a)) + GetLinks(JArr(b))
  {
    ItemsAppend(a, b);
    FlattenOnceAppend(ItemsLinkValues(a), ItemsLinkValues(b));
    CompactIsSubsumed(JArr(a + b));
    CompactIsSubsumed(JArr(a));
    CompactIsSubsumed(JArr(b));
    FilterAppend(Relevant, FlattenOnce(ItemsLinkValues(a)), FlattenOnce(ItemsLinkValues(b)));
  }
}
