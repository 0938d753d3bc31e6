# JSON Hyper-Schema test-data generator — a Dafny model

This project models the pure core of a small library that reads a JSON
Hyper-Schema document and produces test-scenario stubs for the API it
describes. The core has two parts:

- **Link extraction** (`getLinks`). It finds every `links` member anywhere in
  the document and flattens the found values by one level. It drops falsy
  entries and keeps only the links whose `schema` or `targetSchema` is truthy.
- **Data generation** (`generateData`). It builds one `{link, data}` record per
  extracted link. The data list starts with the scenario messages of a fixed
  decision table over the link's `method` and `rel`. The samples that the
  external sample synthesiser produces for the link's `schema` follow.

Modules:

- `Options`, `JsonValues` (json.dfy): JSON values, with objects as ordered
  member lists. Also JavaScript truthiness, property reads (`undefined` is
  `None`), and nesting (`Within`, `KeyOccurs`).
- `AsciiCase` (ascii_case.dfy): `toUpperCase`/`toLowerCase` on ASCII letters,
  and case-insensitive equality defined independently on code points.
- `LinkExtraction` (link_extraction.dfy): the search, the one-level flatten,
  the compact and relevance filters, `GetLinks`, and an explicit work-list
  version of the search.
- `Scenarios` (scenarios.dfy): the method × rel decision table.
- `DataGeneration` (data_generation.dfy): record assembly and the
  `generateData` loop.

Modelling assumptions:

- The property search is an external package, and its visiting order is not
  visible in the library's code. It is modelled as a pre-order depth-first
  walk that visits object members in order. The walk descends into every
  value, including the values of `links` members.
- The sample synthesiser is the function parameter `synth: Json -> seq<Json>`.
  Nothing is assumed about the values it produces, but being a Dafny function
  it is taken to be deterministic, total and free of side effects.
- A data-list entry is `Scenario(message)`, which stands for the object
  `{message: m}`, or `Sample(value)`, which is one synthesised value. The tag
  records where an entry came from; the program's output holds only the
  untagged values, in which a synthesised object with a `message` member looks
  the same as a scenario stub.
- A property read takes an object's first member with that name. JavaScript
  objects have unique keys, so this only matters for member lists with a
  repeated name, which `JSON.parse` reads differently (it keeps the last).

Two behaviours of the code worth knowing:

- `_.compact` removes every falsy entry (`null`, `false`, `0`, `""`), not
  only `null` and `undefined`, and so does the model.
- A `links` value need not be an array: the one-level flatten keeps it as a
  single entry, and a non-object entry has no `schema`, so the relevance
  filter drops it.

## Model

| member | source | states |
|---|---|---|
| JsonValues.Lookup | lib/index.js:12 | a property read finds a value exactly when the object has a member of that name |
| JsonValues.LookupFindsFirst | lib/index.js:12 | a found value is the value of the first member with that name |
| JsonValues.Truthy | lib/index.js:14 | a value is falsy exactly when it is `null`, `false`, `0` or the empty string |
| JsonValues.StringField | lib/index.js:41 | `typeof link.k === 'string'` holds exactly when the member exists and holds a string, and then yields that string |
| AsciiCase.ToUpper | lib/index.js:42 | upper-casing keeps the length, leaves no lower-case letter and changes nothing but the case of letters |
| AsciiCase.ToLower | lib/index.js:43 | lower-casing keeps the length, leaves no upper-case letter and changes nothing but the case of letters |
| AsciiCase.ToUpperMatches | lib/index.js:42-44 | `method.toUpperCase() === W` for an upper-case word W holds exactly when the method spells W in any mixture of cases |
| AsciiCase.ToLowerMatches | lib/index.js:43-52 | `rel.toLowerCase() === w` for a lower-case word w holds exactly when the rel spells w in any mixture of cases |
| AsciiCase.ToUpperRespectsCase | lib/index.js:42 | two spellings that agree up to case upper-case to the same string |
| AsciiCase.ToLowerRespectsCase | lib/index.js:43 | two spellings that agree up to case lower-case to the same string |
| LinkExtraction.LinkValues | lib/index.js:7-12 | the search visits in pre-order: an object's own `links` value comes first in what it finds |
| LinkExtraction.Relevant | lib/index.js:15 | only a truthy object can have a truthy `schema` or `targetSchema`, so only objects pass the relevance filter |
| LinkExtraction.OwnLinks | lib/index.js:11-12 | an object contributes one value, its `links` member, exactly when it has one |
| LinkExtraction.LinkValuesMembership | lib/index.js:7-12 | a value is found by the search exactly when it is the `links` value of some object nested anywhere in the document |
| LinkExtraction.LinkValuesEmpty | lib/index.js:7-9 | the search finds nothing exactly when no object in the document has a `links` member |
| LinkExtraction.SearchLinks | lib/index.js:7 | the search done with an explicit stack of pending values yields exactly the pre-order result of the recursive definition |
| LinkExtraction.FlattenOnce | lib/index.js:13 | an entry is in the flattened list exactly when it is an element of a found array, or a found non-array value itself |
| LinkExtraction.FlattenOnceSingle | lib/index.js:13 | a single found value flattens to exactly its array's elements, in order and with repeats, or to itself when it is not an array; with `FlattenOnceAppend` this fixes the whole flattened list |
| LinkExtraction.FlattenOnceAppend | lib/index.js:13 | flattening keeps order: flattening two lists one after the other equals flattening them joined |
| LinkExtraction.Filter | lib/index.js:14-15 | the filtered list is no longer than its input and holds exactly the input's entries that satisfy the predicate |
| LinkExtraction.FilterAppend | lib/index.js:14-15 | filtering keeps order: filtering a joined list equals joining the filtered parts |
| LinkExtraction.GetLinks | lib/index.js:6-20 | every returned link has a truthy `schema` or `targetSchema` and is truthy; a link is returned exactly when it is a relevant entry of the flattened search result |
| LinkExtraction.CompactIsSubsumed | lib/index.js:14-15 | dropping falsy entries before the relevance filter changes nothing, so the later `if (!link)` guard never fires |
| LinkExtraction.NoLinksKeyNoLinks | lib/index.js:8-9 | a document with no `links` member anywhere yields no links |
| LinkExtraction.GetLinksSplit | lib/index.js:10-16 | the links of a list of documents are the links of its first part followed by those of the rest |
| Scenarios.ScenarioMessages | lib/index.js:41-67 | the messages are none or exactly one of the three fixed lists, and some are produced only when `method` and `rel` are both strings |
| Scenarios.ScenarioTable | lib/index.js:41-67 | each row in both directions: GET+self gives the two instance messages, GET+instances the two list messages, DELETE with any string rel the delete messages; anything else gives none |
| Scenarios.ScenariosIgnoreCase | lib/index.js:41-43 | two links whose methods and rels agree up to case, each field on its own, get the same messages |
| Scenarios.DeleteIgnoresRel | lib/index.js:60-66 | a DELETE link with a string rel gets the delete messages whatever that rel is |
| Scenarios.UndescribedHasNoScenarios | lib/index.js:41 | without a string `method` and a string `rel` no message is produced |
| Scenarios.MixedCaseExample | lib/index.js:42-59 | `{method: "get", rel: "INSTANCES"}` gets the list-of-instances messages |
| DataGeneration.Assemble | lib/index.js:36-76 | a record keeps its link unchanged; its messages are the table's, its samples are the synthesiser's output for a truthy `schema` and none otherwise, and no message follows a sample |
| DataGeneration.ScenariosThenSamples | lib/index.js:36-75 | messages placed before samples leave no message after a sample |
| DataGeneration.HeadKind | lib/index.js:70-76 | in a data list with messages first, the first entry is a message exactly when the list carries any message |
| DataGeneration.DataDeterminedBySplit | lib/index.js:70-76 | two data lists with messages first that agree on messages and on samples are equal |
| DataGeneration.SamplesOnlyWhenUndescribed | lib/index.js:70-75 | a link with a truthy `schema` but no string method or rel gets exactly the synthesiser's output |
| DataGeneration.BuildRecords | lib/index.js:28-77 | given truthy links, as extraction yields, the loop yields one record per link, in order, each the assembled record of that link |
| DataGeneration.GenerateData | lib/index.js:22-80 | one record per extracted link, in order; each record's link is that link unchanged and is relevant; a document with no `links` member anywhere gives no records |

## Left out

- `generate` (lib/index.js:90-115): it is asynchronous callback plumbing around
  `process.nextTick` and the external `$ref` resolver, which may do file or
  network I/O. Its quirks are not modelled: it reports a non-object schema but
  carries on, and with `skipDeref` it still calls the resolver.
- The property-search package: replaced by the pre-order walk described above.
  Its real visiting order is not modelled.
- The sample synthesiser: it is a parameter, and its output is opaque. It is
  assumed deterministic, total and free of side effects; the real generator
  may produce different samples on each call, or throw.
- Lodash version specifics: `.flatten(true)` is deep in lodash 3 and one level
  in lodash 4. Only the one-level flatten is modelled.
- AsciiCase.ToUpper: maps ASCII letters only, not the whole of Unicode. No
  non-ASCII character upper-cases to the letters of GET or DELETE.
- AsciiCase.ToLower: maps ASCII letters only, not the whole of Unicode. No
  non-ASCII character lower-cases to the letters of self or instances.
- Floating-point numbers and `NaN`: numbers are integers, so a `NaN` entry is
  not dropped by the model's compact step.
- The `if (!link) continue` guard (lib/index.js:32-34): it cannot fire after
  compaction (see `CompactIsSubsumed`), so the loop has no such branch.
- The early `return fn(null, [])` (lib/index.js:24-25) and the final callback
  are modelled as returning the result.
- Repeat calls: on the same document two calls extract the same links and the
  same scenario messages, as these are pure functions of the document. The
  samples agree only under the synthesiser assumption above, which the real
  generator need not meet.
- Documents are finite JSON trees. Shared or cyclic structure, which a
  recursive `$ref` can give the dereferenced schema, is not modelled, and nor
  is the search's behaviour on it. Nor are values that JSON cannot hold
  (functions, `undefined`, class instances), which a caller may pass in when
  dereferencing is skipped.
- Repeated member names: a property read here takes the first member with the
  name, whereas `JSON.parse` keeps the last. Objects parsed from text have
  unique names, so the two agree on every object the library can receive.
