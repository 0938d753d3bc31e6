/** The decision table of `generateData`: which test-scenario messages a link's
    HTTP method and relation name imply. */
module Scenarios {
  import opened Options
  import opened JsonValues
  import opened AsciiCase

  const MethodKey: string := "method"
  const RelKey: string := "rel"

  const GetInstance: seq<string> :=
    ["should get instance", "should get 404 on unknown instance"]
  const ListInstances: seq<string> :=
    ["should get empty list of instances if none exist", "should get list of instances"]
  const DeleteInstance: seq<string> :=
    ["should delete instance", "should get 404 on unknown instance"]

  /** The messages for one link: both `method` and `rel` must be strings; the
      method is compared upper-cased and the relation lower-cased. */
  function ScenarioMessages(link: Json): (r: seq<string>)
    ensures r == [] || r == GetInstance || r == ListInstances || r == DeleteInstance
    ensures r != [] ==> Described(link)
  {
    match (StringField(link, MethodKey), StringField(link, RelKey))
    case (Some(m), Some(rel)) => Table(ToUpper(m), ToLower(rel))
    case _ => []
  }

  /** The table proper, on the case-mapped method and relation. */
  function Table(verb: string, relation: string): seq<string> {
    if verb == "GET" then
      if relation == "self" then GetInstance
      else if relation == "instances" then ListInstances
      else []
    else if verb == "DELETE" then DeleteInstance
    else []
  }

  /** Both `method` and `rel` are strings. */
  predicate Described(link: Json) {
    StringField(link, MethodKey).Some? && StringField(link, RelKey).Some?
  }

  /** The link is described and its method spells `word` in any case. */
  predicate MethodIs(link: Json, word: string) {
    Described(link) && EqualsIgnoreCase(StringField(link, MethodKey).value, word)
  }

  /** The link is described and its relation spells `word` in any case. */
  predicate RelIs(link: Json, word: string) {
    Described(link) && EqualsIgnoreCase(StringField(link, RelKey).value, word)
  }

  /** The three message lists are nonempty and pairwise different. */
  lemma MessageListsDistinct()
    ensures GetInstance != [] && ListInstances != [] && DeleteInstance != []
    ensures GetInstance != ListInstances && GetInstance != DeleteInstance && ListInstances != DeleteInstance
  {
    // The twelfth characters of the first messages are 'i', 'e' and 't'.
    assert GetInstance[0][11] != ListInstances[0][11];
    assert GetInstance[0][11] != DeleteInstance[0][11];
    assert ListInstances[0][11] != DeleteInstance[0][11];
  }

  /** The method comparisons after upper-casing, restated as
      case-insensitive spellings. */
  lemma MethodFacts(link: Json)
    requires Described(link)
    ensures ToUpper(StringField(link, MethodKey).value) == "GET" <==> MethodIs(link, "GET")
    ensures ToUpper(StringField(link, MethodKey).value) == "DELETE" <==> MethodIs(link, "DELETE")
  {
    var m := StringField(link, MethodKey).value;
    ToUpperMatches(m, "GET");
    ToUpperMatches(m, "DELETE");
  }

  /** The relation comparisons after lower-casing, restated as
      case-insensitive spellings. */
  lemma RelFacts(link: Json)
    requires Described(link)
    ensures ToLower(StringField(link, RelKey).value) == "self" <==> RelIs(link, "self")
    ensures ToLower(StringField(link, RelKey).value) == "instances" <==> RelIs(link, "instances")
  {
    var r := StringField(link, RelKey).value;
    ToLowerMatches(r, "self");
    ToLowerMatches(r, "instances");
  }

  /** The decision table, each row in both directions, with the fall-through
      to no messages. */
  lemma ScenarioTable(link: Json)
    ensures ScenarioMessages(link) == GetInstance <==> MethodIs(link, "GET") && RelIs(link, "self")
    ensures ScenarioMessages(link) == ListInstances <==> MethodIs(link, "GET") && RelIs(link, "instances")
    ensures ScenarioMessages(link) == DeleteInstance <==> MethodIs(link, "DELETE")
    ensures ScenarioMessages(link) == [] <==>
              || !Described(link)
              || (!MethodIs(link, "GET") && !MethodIs(link, "DELETE"))
              || (MethodIs(link, "GET") && !RelIs(link, "self") && !RelIs(link, "instances"))
  {
    MessageListsDistinct();
    if Described(link) {
      MethodFacts(link);
      RelFacts(link);
    }
  }

  /** Method and relation are matched ignoring case, each independently of the
      other. */
  lemma ScenariosIgnoreCase(a: Json, b: Json)
    requires Described(a) && Described(b)
    requires EqualsIgnoreCase(StringField(a, MethodKey).value, StringField(b, MethodKey).value)
    requires EqualsIgnoreCase(StringField(a, RelKey).value, StringField(b, RelKey).value)
    ensures ScenarioMessages(a) == ScenarioMessages(b)
  {
    ToUpperRespectsCase(StringField(a, MethodKey).value, StringField(b, MethodKey).value);
    ToLowerRespectsCase(StringField(a, RelKey).value, StringField(b, RelKey).value);
  }

  /** A DELETE link gets the delete scenarios whatever string its relation
      holds. */
  lemma DeleteIgnoresRel(link: Json)
    requires MethodIs(link, "DELETE")
    ensures ScenarioMessages(link) == DeleteInstance
  {
    ScenarioTable(link);
  }

  /** Without a string `method` and a string `rel` the table yields nothing. */
  lemma UndescribedHasNoScenarios(link: Json)
    requires !Described(link)
    ensures ScenarioMessages(link) == []
  {
  }

  /** `{method: "get", rel: "INSTANCES"}` is classified like
      `{method: "GET", rel: "instances"}`. */
  lemma MixedCaseExample()
    ensures ScenarioMessages(JObj([Member("method", JStr("get")), Member("rel", JStr("INSTANCES"))]))
         == ListInstances
  {
    var fields := [Member("method", JStr("get")), Member("rel", JStr("INSTANCES"))];
    assert fields[1..] == [Member("rel", JStr("INSTANCES"))];
    assert Lookup(fields, MethodKey) == Some(JStr("get"));
    assert Lookup(fields, RelKey) == Some(JStr("INSTANCES"));
    assert EqualsIgnoreCase("get", "GET");
    assert EqualsIgnoreCase("INSTANCES", "instances");
    assert MethodIs(JObj(fields), "GET");
    assert RelIs(JObj(fields), "instances");
    ScenarioTable(JObj(fields));
  }
}
