/**
 * The loaded knowledge graph as the query layer sees it: vertices, edges,
 * and the read-only indices of the graph store (by id, by name, by label,
 * children grouped by relation type, leaf flags) and of the NLU store
 * (the root vertex of each scenario). The stores' own code is not part of
 * this model; each index is a finite map or sequence, and the operations
 * whose implementation is not visible are function-valued fields.
 */
module KnowledgeGraph {
  import opened Wrappers

  /** .NET `char.IsWhiteSpace`: the Unicode space separators, line and
      paragraph separators, U+0009..U+000D and U+0085. */
  predicate IsWhiteSpace(c: char) {
    || c == ' ' || ('\t' <= c <= '\r') || c == '\U{0085}' || c == '\U{00A0}'
    || c == '\U{1680}' || ('\U{2000}' <= c <= '\U{200A}') || c == '\U{2028}'
    || c == '\U{2029}' || c == '\U{202F}' || c == '\U{205F}' || c == '\U{3000}'
  }

  /** `string.IsNullOrWhiteSpace`. A null string is modelled as "". */
  predicate IsBlank(s: string) {
    forall i :: 0 <= i < |s| ==> IsWhiteSpace(s[i])
  }

  /** The attribute value that matches every value. */
  const Wildcard: string := "ALL"

  datatype VertexProperty = VertexProperty(name: string, value: string)

  /** A vertex (`vertexLabel` is the source's `label`, a reserved word here);
      `scenarios == None` is a null scenario list, which makes the
      vertex global (it belongs to every scenario). */
  datatype Vertex = Vertex(
    id: string,
    name: string,
    vertexLabel: string,
    properties: seq<VertexProperty>,
    scenarios: Option<seq<string>>)

  datatype Edge = Edge(headVertexId: string, tailVertexId: string, relationType: string)

  /** An attribute predicate; the requested value may be null. */
  datatype AttributePair = AttributePair(attributeName: string, attributeValue: Option<string>)

  /** What `Vertex.GetPropertyValue` does: return a value, return null, or throw. */
  datatype PropertyLookup = Found(value: string) | Missing | Raised

  /** One entry of a dictionary from relation type to neighbour ids; a
      sequence of these keeps the dictionary's enumeration order. */
  datatype IdGroup = IdGroup(relationType: string, ids: seq<string>)

  /** One neighbour id together with the relation type that lists it. */
  datatype Entry = Entry(relationType: string, id: string)

  datatype ColorConfig = ColorConfig(itemLabel: string, color: string)

  /** One entry of the scenario to color-configs dictionary. */
  datatype ScenarioColors = ScenarioColors(scenario: string, configs: seq<ColorConfig>)

  /** The entries of one group, in id order. */
  function Tag(g: IdGroup): (r: seq<Entry>)
    ensures |r| == |g.ids|
    ensures forall i :: 0 <= i < |r| ==> r[i] == Entry(g.relationType, g.ids[i])
  {
    seq(|g.ids|, i requires 0 <= i < |g.ids| => Entry(g.relationType, g.ids[i]))
  }

  /** The order in which a nested foreach over relation types and then over
      ids meets the entries. */
  function Flatten(gs: seq<IdGroup>): (r: seq<Entry>)
  {
    if |gs| == 0 then [] else Flatten(gs[..|gs| - 1]) + Tag(gs[|gs| - 1])
  }

  /** Flattening distributes over concatenation. */
  lemma {:induction false} FlattenAppend(a: seq<IdGroup>, b: seq<IdGroup>)
    ensures Flatten(a + b) == Flatten(a) + Flatten(b)
    decreases |b|
  {
    if |b| == 0 {
      assert a + b == a;
    } else {
      var init := b[..|b| - 1];
      var ab := a + b;
      assert ab[..|ab| - 1] == a + init;
      assert ab[|ab| - 1] == b[|b| - 1];
      FlattenAppend(a, init);
      assert Flatten(ab) == Flatten(a + init) + Tag(b[|b| - 1]);
      assert Flatten(b) == Flatten(init) + Tag(b[|b| - 1]);
    }
  }

  /** The distinct ids a dictionary of groups lists. */
  function NeighbourIds(gs: seq<IdGroup>): set<string> {
    set e | e in Flatten(gs) :: e.id
  }

  /** The relation types a dictionary of groups uses as keys. */
  function RelationTypes(gs: seq<IdGroup>): set<string> {
    set g | g in gs :: g.relationType
  }

  /** Dictionary keys are unique. */
  predicate DistinctTypes(gs: seq<IdGroup>) {
    forall i, j :: 0 <= i < j < |gs| ==> gs[i].relationType != gs[j].relationType
  }

  /** Every entry of the flattened groups carries one of the groups' keys,
      and every id it lists is listed by some group under that key. */
  lemma {:induction false} FlattenEntries(gs: seq<IdGroup>)
    ensures forall e :: e in Flatten(gs) ==> e.relationType in RelationTypes(gs)
    ensures forall e :: e in Flatten(gs) ==> exists g :: g in gs && g.relationType == e.relationType && e.id in g.ids
  {
    if |gs| > 0 {
      var init := gs[..|gs| - 1];
      FlattenEntries(init);
      assert forall g :: g in init ==> g in gs;
      forall e | e in Flatten(gs)
        ensures e.relationType in RelationTypes(gs)
        ensures exists g :: g in gs && g.relationType == e.relationType && e.id in g.ids
      {
        if e !in Flatten(init) {
          var k :| 0 <= k < |Tag(gs[|gs| - 1])| && Tag(gs[|gs| - 1])[k] == e;
          assert gs[|gs| - 1] in gs && gs[|gs| - 1].ids[k] == e.id;
        }
      }
    }
  }

  /** The first group stored under a key, as `dict[key]` finds it. */
  function GroupOf(gs: seq<IdGroup>, relationType: string): (r: Option<IdGroup>)
    ensures r.Some? ==> r.value in gs && r.value.relationType == relationType
    ensures r.None? ==> forall g :: g in gs ==> g.relationType != relationType
  {
    if |gs| == 0 then None
    else if gs[0].relationType == relationType then Some(gs[0])
    else GroupOf(gs[1..], relationType)
  }

  /** The graph store behind `DataManager`. `childIds` maps (vertex id,
      scenario) to the vertex's children grouped by relation type; a key
      that is absent is a null dictionary. */
  datatype KGStore = KGStore(
    vertexById: map<string, Vertex>,
    vertexesByName: map<string, seq<Vertex>>,
    vertexesByLabel: map<string, seq<Vertex>>,
    childIds: map<(string, string), seq<IdGroup>>,
    leafIds: set<string>,
    propertyValue: (Vertex, string) -> PropertyLookup)
  {
    function GetVertexById(id: string): Option<Vertex> {
      if id in vertexById then Some(vertexById[id]) else None
    }

    function GetVertexByName(name: string): Option<seq<Vertex>> {
      if name in vertexesByName then Some(vertexesByName[name]) else None
    }

    function GetVertexByLabel(vertexLabel: string): Option<seq<Vertex>> {
      if vertexLabel in vertexesByLabel then Some(vertexesByLabel[vertexLabel]) else None
    }

    /** Children of a vertex in a scenario: all relation types when
        `relationType` is null, otherwise a one-entry dictionary or null. */
    function GetChildrenIds(id: string, relationType: Option<string>, scenario: string): (r: Option<seq<IdGroup>>)
      ensures relationType.Some? && r.Some? ==> |r.value| == 1 && r.value[0].relationType == relationType.value
    {
      if (id, scenario) !in childIds then None
      else if relationType.None? then Some(childIds[(id, scenario)])
      else match GroupOf(childIds[(id, scenario)], relationType.value)
        case None => None
        case Some(g) => Some([g])
    }

    predicate IsLeaf(v: Vertex) {
      v.id in leafIds
    }

    function GetPropertyValue(v: Vertex, name: string): PropertyLookup {
      propertyValue(v, name)
    }

    /** The child dictionaries are dictionaries: their keys are unique. */
    predicate Valid() {
      forall key :: key in childIds ==> DistinctTypes(childIds[key])
    }
  }

  /** The NLU store: the configured root vertex of each scenario. */
  datatype NLUStore = NLUStore(roots: map<string, Vertex>) {
    function GetRoot(scenario: string): Option<Vertex> {
      if scenario in roots then Some(roots[scenario]) else None
    }
  }

  /** The data frame behind `GraphExecutor`. Keyword search and the
      by-scenario queries are opaque to the core, hence function fields;
      `childLinks`/`parentLinks` map a vertex id to its relation links
      (keyed by relation type), an absent key being a null dictionary. */
  datatype KGFrame = KGFrame(
    vertexById: map<string, Vertex>,
    keywordSearch: string -> Option<seq<Vertex>>,
    allVertexes: seq<Vertex>,
    scenarioNames: Option<set<string>>,
    colorMap: Option<seq<ScenarioColors>>,
    vertexesByScenarios: seq<string> -> seq<Vertex>,
    relationsByScenarios: seq<string> -> seq<Edge>,
    childLinks: map<string, seq<IdGroup>>,
    parentLinks: map<string, seq<IdGroup>>,
    propertyValue: (Vertex, string) -> PropertyLookup)
  {
    function GetVertexById(id: string): Option<Vertex> {
      if id in vertexById then Some(vertexById[id]) else None
    }

    function GetPropertyValue(v: Vertex, name: string): PropertyLookup {
      propertyValue(v, name)
    }

    /** Every vertex is indexed under its own id. */
    predicate Consistent() {
      forall id :: id in vertexById ==> vertexById[id].id == id
    }
  }
}
