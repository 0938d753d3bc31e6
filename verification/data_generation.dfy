/** `generateData`: one record per extracted link, pairing the link with its
    scenario messages followed by sample instances of its `schema`.

    The sample synthesiser is an external package; it is a parameter here,
    `synth`. Nothing is assumed about the values it yields, but as a Dafny
    function it is deterministic, total and free of side effects. */
module DataGeneration {
  import opened JsonValues
  import opened LinkExtraction
  import opened Scenarios

  /** One entry of a record's data list: a scenario stub, which the source
      writes as the object `{message: m}`, or a synthesised sample value. */
  datatype Entry = Scenario(message: string) | Sample(value: Json)

  /** `{link, data}`. */
  datatype Record = Record(link: Json, data: seq<Entry>)

  /** The messages of the scenario entries, in order. */
  function MessagesOf(data: seq<Entry>): seq<string>
    decreases data
  {
    if |data| == 0 then []
    else (if data[0].Scenario? then [data[0].message] else []) + MessagesOf(data[1..])
  }

  /** The sample values, in order. */
  function SamplesOf(data: seq<Entry>): seq<Json>
    decreases data
  {
    if |data| == 0 then []
    else (if data[0].Sample? then [data[0].value] else []) + SamplesOf(data[1..])
  }

  /** No scenario entry follows a sample entry. */
  predicate ScenariosFirst(data: seq<Entry>) {
    forall i, k :: 0 <= i < k < |data| && data[k].Scenario? ==> data[i].Scenario?
  }

  /** The sample instances a link contributes: those of its `schema` when that
      is truthy, none otherwise. */
  function SampleData(link: Json, synth: Json -> seq<Json>): (r: seq<Json>)
    ensures !TruthyField(link, SchemaKey) ==> r == []
    ensures TruthyField(link, SchemaKey) ==> r == synth(Field(link, SchemaKey).value)
  {
    if TruthyField(link, SchemaKey) then synth(Field(link, SchemaKey).value) else []
  }

  /** Messages as scenario entries. */
  function AsScenarios(msgs: seq<string>): seq<Entry> {
    seq(|msgs|, i requires 0 <= i < |msgs| => Scenario(msgs[i]))
  }

  /** Sample values as sample entries. */
  function AsSamples(vs: seq<Json>): seq<Entry> {
    seq(|vs|, i requires 0 <= i < |vs| => Sample(vs[i]))
  }

  lemma {:induction false} AsScenariosSplit(msgs: seq<string>)
    ensures MessagesOf(AsScenarios(msgs)) == msgs
    ensures SamplesOf(AsScenarios(msgs)) == []
    decreases msgs
  {
    if |msgs| > 0 {
      AsScenariosSplit(msgs[1..]);
      assert AsScenarios(msgs)[1..] == AsScenarios(msgs[1..]);
    }
  }

  lemma {:induction false} AsSamplesSplit(vs: seq<Json>)
    ensures MessagesOf(AsSamples(vs)) == []
    ensures SamplesOf(AsSamples(vs)) == vs
    decreases vs
  {
    if |vs| > 0 {
      AsSamplesSplit(vs[1..]);
      assert AsSamples(vs)[1..] == AsSamples(vs[1..]);
    }
  }

  lemma {:induction false} SplitAppend(a: seq<Entry>, b: seq<Entry>)
    ensures MessagesOf(a + b) == MessagesOf(a) + MessagesOf(b)
    ensures SamplesOf(a + b) == SamplesOf(a) + SamplesOf(b)
    decreases a
  {
    if |a| > 0 {
      assert (a + b)[1..] == a[1..] + b;
      SplitAppend(a[1..], b);
    } else {
      assert a + b == b;
    }
  }

  lemma ScenariosThenSamples(msgs: seq<string>, vs: seq<Json>)
    ensures ScenariosFirst(AsScenarios(msgs) + AsSamples(vs))
  {
    var data := AsScenarios(msgs) + AsSamples(vs);
    forall k | |msgs| <= k < |data|
      ensures data[k].Sample?
    {
      assert data[k] == AsSamples(vs)[k - |msgs|];
    }
  }

  /** The data list of one link, as the loop builds it. */
  function RecordData(link: Json, synth: Json -> seq<Json>): seq<Entry> {
    AsScenarios(ScenarioMessages(link)) + AsSamples(SampleData(link, synth))
  }

  /** The record built for one link: the link itself, its table messages, then
      the samples of its schema. */
  function Assemble(link: Json, synth: Json -> seq<Json>): (r: Record)
    ensures r.link == link
    ensures ScenariosFirst(r.data)
    ensures MessagesOf(r.data) == ScenarioMessages(link)
    ensures SamplesOf(r.data) == SampleData(link, synth)
    ensures TruthyField(link, SchemaKey) ==> SamplesOf(r.data) == synth(Field(link, SchemaKey).value)
    ensures !TruthyField(link, SchemaKey) ==> SamplesOf(r.data) == []
  {
    var msgs := ScenarioMessages(link);
    var vs := SampleData(link, synth);
    AsScenariosSplit(msgs);
    AsSamplesSplit(vs);
    SplitAppend(AsScenarios(msgs), AsSamples(vs));
    ScenariosThenSamples(msgs, vs);
    Record(link, RecordData(link, synth))
  }

  /** The tail of a list that keeps scenarios first keeps them first too; and
      once such a list starts with a sample, it holds samples only. */
  lemma ScenariosFirstTail(data: seq<Entry>)
    requires ScenariosFirst(data) && |data| > 0
    ensures ScenariosFirst(data[1..])
    ensures data[0].Sample? ==> forall k :: 0 <= k < |data| ==> data[k].Sample?
  {
    var tail := data[1..];
    forall i, k | 0 <= i < k < |tail| && tail[k].Scenario?
      ensures tail[i].Scenario?
    {
      assert tail[k] == data[k + 1] && tail[i] == data[i + 1];
    }
  }

  /** A list of samples only carries no messages. */
  lemma {:induction false} NoMessagesAmongSamples(data: seq<Entry>)
    requires forall k :: 0 <= k < |data| ==> data[k].Sample?
    ensures MessagesOf(data) == []
    decreases data
  {
    if |data| > 0 {
      assert forall k :: 0 <= k < |data[1..]| ==> data[1..][k] == data[k + 1];
      NoMessagesAmongSamples(data[1..]);
    }
  }

  /** The head of a nonempty list that keeps scenarios first is a scenario
      exactly when the list has messages. */
  lemma HeadKind(data: seq<Entry>)
    requires ScenariosFirst(data) && |data| > 0
    ensures ScenariosFirst(data[1..])
    ensures data[0].Scenario? <==> MessagesOf(data) != []
    ensures data[0].Scenario? ==> MessagesOf(data) == [data[0].message] + MessagesOf(data[1..])
    ensures data[0].Scenario? ==> SamplesOf(data) == SamplesOf(data[1..])
    ensures data[0].Sample? ==> SamplesOf(data) == [data[0].value] + SamplesOf(data[1..])
    ensures data[0].Sample? ==> MessagesOf(data[1..]) == []
  {
    ScenariosFirstTail(data);
    if data[0].Sample? {
      NoMessagesAmongSamples(data);
      assert MessagesOf(data) == MessagesOf(data[1..]);
    }
  }

  /** Two data lists that keep scenarios first and agree on messages and on
      samples are equal: the contract of `Assemble` pins its data list down. */
  lemma {:induction false} DataDeterminedBySplit(a: seq<Entry>, b: seq<Entry>)
    requires ScenariosFirst(a) && ScenariosFirst(b)
    requires MessagesOf(a) == MessagesOf(b) && SamplesOf(a) == SamplesOf(b)
    ensures a == b
    decreases |a|
  {
    if |a| > 0 && |b| > 0 {
      HeadKind(a);
      HeadKind(b);
      if a[0].Scenario? {
        assert a[0].message == MessagesOf(a)[0] == b[0].message;
        assert MessagesOf(a[1..]) == MessagesOf(a)[1..] == MessagesOf(b)[1..] == MessagesOf(b[1..]);
      } else {
        assert a[0].value == SamplesOf(a)[0] == b[0].value;
        assert SamplesOf(a[1..]) == SamplesOf(a)[1..] == SamplesOf(b)[1..] == SamplesOf(b[1..]);
      }
      DataDeterminedBySplit(a[1..], b[1..]);
      assert a == [a[0]] + a[1..] && b == [b[0]] + b[1..];
    } else if |a| > 0 {
      HeadKind(a);
    } else if |b| > 0 {
      HeadKind(b);
    }
  }

  /** A link with a truthy `schema` but no string `method` or `rel` gets exactly
      the synthesiser's output for that schema. */
  lemma SamplesOnlyWhenUndescribed(link: Json, synth: Json -> seq<Json>)
    requires !Described(link) && TruthyField(link, SchemaKey)
    ensures Assemble(link, synth).data == AsSamples(synth(Field(link, SchemaKey).value))
  {
    var r := Assemble(link, synth);
    var expected := AsSamples(synth(Field(link, SchemaKey).value));
    ScenariosThenSamples([], synth(Field(link, SchemaKey).value));
    assert AsScenarios([]) + expected == expected;
    DataDeterminedBySplit(r.data, expected);
  }

  /** The loop of `generateData`: one record per link, in order. */
  method BuildRecords(links: seq<Json>, synth: Json -> seq<Json>) returns (ret: seq<Record>)
    requires forall l :: l in links ==> Truthy(l)
    ensures |ret| == |links|
    ensures forall i :: 0 <= i < |ret| ==> ret[i] == Assemble(links[i], synth)
  {
    ret := [];
    for i := 0 to |links|
      invariant |ret| == i
      invariant forall k :: 0 <= k < i ==> ret[k] == Record(links[k], RecordData(links[k], synth))
    {
      var link := links[i];
      var data := AsScenarios(ScenarioMessages(link));
      if !TruthyField(link, SchemaKey) {
        assert data == RecordData(link, synth) by {
          assert data + AsSamples([]) == data;
        }
        ret := ret + [Record(link, data)];
        continue;
      }
      data := data + AsSamples(synth(Field(link, SchemaKey).value));
      assert data == RecordData(link, synth);
      ret := ret + [Record(link, data)];
    }
    forall i | 0 <= i < |ret|
      ensures ret[i] == Assemble(links[i], synth)
    {
    }
  }

  /** `generateData(schema, fn)`, with the callback's result returned. */
  method GenerateData(schema: Json, synth: Json -> seq<Json>) returns (ret: seq<Record>)
    ensures |ret| == |GetLinks(schema)|
    ensures forall i :: 0 <= i < |ret| ==> ret[i] == Assemble(GetLinks(schema)[i], synth)
    ensures forall i :: 0 <= i < |ret| ==> Relevant(ret[i].link)
    ensures !KeyOccurs(schema, LinksKey) ==> ret == []
  {
    var links := GetLinks(schema);
    LinkValuesEmpty(schema);
    if |links| == 0 {
      ret := [];
    } else {
      var records := BuildRecords(links, synth);
      forall i | 0 <= i < |records|
        ensures Relevant(records[i].link)
      {
        assert records[i].link == links[i] && links[i] in links;
      }
      ret := records;
    }
  }
}
