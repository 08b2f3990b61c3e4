/**
 * GraphExecutor: the visualization adapter over the knowledge-graph data
 * frame. It turns store vertices and edges into the display records the
 * front end draws, filters vertices by a property value, serves the
 * scenario names and the per-scenario color configuration, and builds the
 * one-hop neighbourhood of a vertex (its property pseudo-vertices, its
 * children and its parents).
 */
module GraphExecutor {
  import opened Wrappers
  import opened Sequences
  import opened KnowledgeGraph

  /** `VisulizedVertex`; `vertexLabel` is the source's `label`. */
  datatype VisVertex = VisVertex(id: string, name: string, displayName: string, vertexLabel: string)

  /** `VisulizedEdge`. */
  datatype VisEdge = VisEdge(sourceId: string, targetId: string, value: string)

  /** The pair (vertex list, edge list) the drawing methods return. */
  datatype Drawing = Drawing(vertexes: seq<VisVertex>, edges: seq<VisEdge>)

  /** The exceptions that leave GraphExecutor: the two argument checks of
      FilterVertexesByProperty, an exception thrown by a property accessor,
      and the null dereference on a neighbour id the frame does not know. */
  datatype Error = InvalidInput(message: string) | AccessorRaised | DanglingNeighbour(id: string)

  /* ---------------- Projections ---------------- */

  /** The display record of a vertex: the name doubles as display name. */
  function Visualize(v: Vertex): VisVertex {
    VisVertex(v.id, v.name, v.name, v.vertexLabel)
  }

  function ConvertVertex(vertex: Option<Vertex>): (r: Option<VisVertex>)
    ensures r.None? <==> vertex.None?
    ensures vertex.Some? ==>
              && r.value.id == vertex.value.id && r.value.name == vertex.value.name
              && r.value.displayName == vertex.value.name && r.value.vertexLabel == vertex.value.vertexLabel
  {
    match vertex
    case None => None
    case Some(v) => Some(Visualize(v))
  }

  /** Two vertices draw the same exactly when they agree on id, name and
      label: the projection forgets the properties and the scenarios only. */
  lemma VisualizeForgets(a: Vertex, b: Vertex)
    ensures Visualize(a) == Visualize(b) <==> a.id == b.id && a.name == b.name && a.vertexLabel == b.vertexLabel
  {
  }

  function VisualizeEdge(e: Edge): VisEdge {
    VisEdge(e.headVertexId, e.tailVertexId, e.relationType)
  }

  function ConvertEdge(edge: Option<Edge>): (r: Option<VisEdge>)
    ensures r.None? <==> edge.None?
    ensures edge.Some? ==>
              && r.value.sourceId == edge.value.headVertexId && r.value.targetId == edge.value.tailVertexId
              && r.value.value == edge.value.relationType
  {
    match edge
    case None => None
    case Some(e) => Some(VisualizeEdge(e))
  }

  /** The edge a display edge was drawn from. */
  function EdgeOf(ve: VisEdge): Edge {
    Edge(ve.sourceId, ve.targetId, ve.value)
  }

  /** Edge conversion loses nothing: it is inverted by EdgeOf, both ways. */
  lemma ConvertEdgeRoundTrip(e: Edge, ve: VisEdge)
    ensures EdgeOf(ConvertEdge(Some(e)).value) == e
    ensures ConvertEdge(Some(EdgeOf(ve))) == Some(ve)
  {
  }

  /* ---------------- Lookups ---------------- */

  function GetVertexById(frame: KGFrame, vId: string): (r: Option<VisVertex>)
    ensures r.None? <==> vId !in frame.vertexById
    ensures r.Some? ==> r == ConvertVertex(Some(frame.vertexById[vId]))
  {
    match frame.GetVertexById(vId)
    case None => None
    case Some(vertex) => ConvertVertex(Some(vertex))
  }

  method SearchVertexesByName(frame: KGFrame, keyword: string) returns (r: Option<seq<VisVertex>>)
    ensures r.None? <==> frame.keywordSearch(keyword).None? || |frame.keywordSearch(keyword).value| == 0
    ensures r.Some? ==>
              && |r.value| == |frame.keywordSearch(keyword).value|
              && forall i :: 0 <= i < |r.value| ==> r.value[i] == Visualize(frame.keywordSearch(keyword).value[i])
  {
    var searchedVertexes := frame.keywordSearch(keyword);
    if searchedVertexes.None? || |searchedVertexes.value| == 0 {
      return None;
    }
    var results: seq<VisVertex> := [];
    var i := 0;
    while i < |searchedVertexes.value|
      invariant 0 <= i <= |searchedVertexes.value|
      invariant |results| == i
      invariant forall k :: 0 <= k < i ==> results[k] == Visualize(searchedVertexes.value[k])
    {
      results := results + [ConvertVertex(Some(searchedVertexes.value[i])).value];
      i := i + 1;
    }
    return Some(results);
  }

  /* ---------------- FilterVertexesByProperty ---------------- */

  /** A vertex matches when its property value is not blank and equals the
      requested value. */
  predicate Matches(frame: KGFrame, v: Vertex, propertyName: string, propertyValue: string) {
    match frame.GetPropertyValue(v, propertyName)
    case Found(value) => !IsBlank(value) && value == propertyValue
    case Missing => false
    case Raised => false
  }

  /** The loop over all vertices: matching vertices converted in order, or
      the first accessor exception. */
  function PropertyMatches(frame: KGFrame, vs: seq<Vertex>, propertyName: string, propertyValue: string)
    : (r: Result<seq<VisVertex>, Error>)
    ensures r.Failure? ==> r.error == AccessorRaised
    ensures r.Success? ==> |r.value| <= |vs|
  {
    if |vs| == 0 then Success([])
    else
      var last := vs[|vs| - 1];
      match PropertyMatches(frame, vs[..|vs| - 1], propertyName, propertyValue)
      case Failure(e) => Failure(e)
      case Success(results) =>
        match frame.GetPropertyValue(last, propertyName)
        case Raised => Failure(AccessorRaised)
        case Missing => Success(results)
        case Found(value) =>
          if IsBlank(value) then Success(results)
          else if value == propertyValue then Success(results + [Visualize(last)])
          else Success(results)
  }

  method FilterVertexesByProperty(frame: KGFrame, propertyName: string, propertyValue: string)
    returns (r: Result<seq<VisVertex>, Error>)
    ensures |propertyName| == 0 ==> r == Failure(InvalidInput("Invalid input: propertyName is empty."))
    ensures |propertyName| > 0 && |propertyValue| == 0 ==> r == Failure(InvalidInput("Invalid input: propertyValue is empty."))
    ensures |propertyName| > 0 && |propertyValue| > 0 ==> r == PropertyMatches(frame, frame.allVertexes, propertyName, propertyValue)
  {
    if |propertyName| == 0 {
      return Failure(InvalidInput("Invalid input: propertyName is empty."));
    }
    if |propertyValue| == 0 {
      return Failure(InvalidInput("Invalid input: propertyValue is empty."));
    }
    var allVertexes := frame.allVertexes;
    var results: seq<VisVertex> := [];
    var i := 0;
    while i < |allVertexes|
      invariant 0 <= i <= |allVertexes|
      invariant PropertyMatches(frame, allVertexes[..i], propertyName, propertyValue) == Success(results)
    {
      assert allVertexes[..i + 1][..i] == allVertexes[..i];
      var vertex := allVertexes[i];
      var value := frame.GetPropertyValue(vertex, propertyName);
      if value.Raised? {
        PropertyMatchesRaisedSticks(frame, allVertexes, i + 1, propertyName, propertyValue);
        return Failure(AccessorRaised);
      }
      if value.Missing? || IsBlank(value.value) {
        i := i + 1;
        continue;
      }
      if value.value == propertyValue {
        results := results + [ConvertVertex(Some(vertex)).value];
      }
      i := i + 1;
    }
    assert allVertexes[..|allVertexes|] == allVertexes;
    return Success(results);
  }

  /** Once the accessor has thrown on a prefix, the whole loop throws. */
  lemma {:induction false} PropertyMatchesRaisedSticks(frame: KGFrame, vs: seq<Vertex>, n: nat, propertyName: string, propertyValue: string)
    requires n <= |vs|
    requires PropertyMatches(frame, vs[..n], propertyName, propertyValue).Failure?
    ensures PropertyMatches(frame, vs, propertyName, propertyValue).Failure?
    decreases |vs| - n
  {
    if n < |vs| {
      assert vs[..n + 1][..n] == vs[..n];
      PropertyMatchesRaisedSticks(frame, vs, n + 1, propertyName, propertyValue);
    } else {
      assert vs[..n] == vs;
    }
  }

  /** The filter throws exactly when the accessor throws on some vertex. */
  lemma {:induction false} PropertyMatchesFails(frame: KGFrame, vs: seq<Vertex>, propertyName: string, propertyValue: string)
    ensures PropertyMatches(frame, vs, propertyName, propertyValue).Failure? <==>
              exists i :: 0 <= i < |vs| && frame.GetPropertyValue(vs[i], propertyName).Raised?
  {
    if |vs| > 0 {
      var init := vs[..|vs| - 1];
      PropertyMatchesFails(frame, init, propertyName, propertyValue);
      if exists i :: 0 <= i < |init| && frame.GetPropertyValue(init[i], propertyName).Raised? {
        var i :| 0 <= i < |init| && frame.GetPropertyValue(init[i], propertyName).Raised?;
        assert vs[i] == init[i];
      } else {
        forall i | 0 <= i < |vs| - 1
          ensures !frame.GetPropertyValue(vs[i], propertyName).Raised?
        {
          assert vs[i] == init[i];
        }
      }
    }
  }

  /** Soundness and completeness: the result holds exactly the converted
      matching vertices. */
  lemma {:induction false} PropertyMatchesMembers(frame: KGFrame, vs: seq<Vertex>, propertyName: string, propertyValue: string)
    requires PropertyMatches(frame, vs, propertyName, propertyValue).Success?
    ensures forall w :: w in PropertyMatches(frame, vs, propertyName, propertyValue).value <==>
              exists i :: 0 <= i < |vs| && Matches(frame, vs[i], propertyName, propertyValue) && w == Visualize(vs[i])
  {
    if |vs| > 0 {
      var init := vs[..|vs| - 1];
      var last := vs[|vs| - 1];
      PropertyMatchesMembers(frame, init, propertyName, propertyValue);
      forall w
        ensures w in PropertyMatches(frame, vs, propertyName, propertyValue).value <==>
                exists i :: 0 <= i < |vs| && Matches(frame, vs[i], propertyName, propertyValue) && w == Visualize(vs[i])
      {
        if exists i :: 0 <= i < |init| && Matches(frame, init[i], propertyName, propertyValue) && w == Visualize(init[i]) {
          var i :| 0 <= i < |init| && Matches(frame, init[i], propertyName, propertyValue) && w == Visualize(init[i]);
          assert vs[i] == init[i];
        }
        if exists i :: 0 <= i < |vs| && Matches(frame, vs[i], propertyName, propertyValue) && w == Visualize(vs[i]) {
          var i :| 0 <= i < |vs| && Matches(frame, vs[i], propertyName, propertyValue) && w == Visualize(vs[i]);
          if i < |vs| - 1 {
            assert vs[i] == init[i];
          }
        }
      }
    }
  }

  /** `idx` lists, in increasing order, exactly the positions of `vs` whose
      vertex matches, and `r` holds those vertices converted, in that order. */
  ghost predicate MatchedAt(frame: KGFrame, vs: seq<Vertex>, propertyName: string, propertyValue: string,
                            r: seq<VisVertex>, idx: seq<int>)
  {
    && |idx| == |r|
    && (forall i, j :: 0 <= i < j < |idx| ==> idx[i] < idx[j])
    && (forall i :: 0 <= i < |idx| ==> 0 <= idx[i] < |vs| && r[i] == Visualize(vs[idx[i]]))
    && (forall j :: 0 <= j < |vs| ==> (j in idx <==> Matches(frame, vs[j], propertyName, propertyValue)))
  }

  /** A matching last vertex extends the positions by its own position. */
  lemma MatchedAtKeep(frame: KGFrame, vs: seq<Vertex>, propertyName: string, propertyValue: string,
                      rest: seq<VisVertex>, idx: seq<int>)
    requires |vs| > 0 && Matches(frame, vs[|vs| - 1], propertyName, propertyValue)
    requires MatchedAt(frame, vs[..|vs| - 1], propertyName, propertyValue, rest, idx)
    ensures MatchedAt(frame, vs, propertyName, propertyValue, rest + [Visualize(vs[|vs| - 1])], idx + [|vs| - 1])
  {
    var n := |vs| - 1;
    var r, idx' := rest + [Visualize(vs[n])], idx + [n];
    forall i, j | 0 <= i < j < |idx'|
      ensures idx'[i] < idx'[j]
    {
      if j < |idx| {
        assert idx'[i] == idx[i] && idx'[j] == idx[j];
      } else {
        assert idx'[i] == idx[i] < n;
      }
    }
    forall i | 0 <= i < |idx'|
      ensures 0 <= idx'[i] < |vs| && r[i] == Visualize(vs[idx'[i]])
    {
      if i < |idx| {
        assert idx'[i] == idx[i] && r[i] == rest[i] && vs[idx[i]] == vs[..n][idx[i]];
      }
    }
    forall j | 0 <= j < |vs|
      ensures j in idx' <==> Matches(frame, vs[j], propertyName, propertyValue)
    {
      if j < n {
        assert vs[j] == vs[..n][j];
        assert j in idx' <==> j in idx;
      }
    }
  }

  /** A last vertex that does not match leaves the positions as they are. */
  lemma MatchedAtSkip(frame: KGFrame, vs: seq<Vertex>, propertyName: string, propertyValue: string,
                      rest: seq<VisVertex>, idx: seq<int>)
    requires |vs| > 0 && !Matches(frame, vs[|vs| - 1], propertyName, propertyValue)
    requires MatchedAt(frame, vs[..|vs| - 1], propertyName, propertyValue, rest, idx)
    ensures MatchedAt(frame, vs, propertyName, propertyValue, rest, idx)
  {
    var n := |vs| - 1;
    forall i | 0 <= i < |idx|
      ensures 0 <= idx[i] < |vs| && rest[i] == Visualize(vs[idx[i]])
    {
      assert vs[idx[i]] == vs[..n][idx[i]];
    }
    forall j | 0 <= j < |vs|
      ensures j in idx <==> Matches(frame, vs[j], propertyName, propertyValue)
    {
      if j < n {
        assert vs[j] == vs[..n][j];
      } else {
        assert j !in idx;
      }
    }
  }

  /** The positions of the matching vertices, for a filter that succeeds. */
  lemma {:induction false} MatchedPositions(frame: KGFrame, vs: seq<Vertex>, propertyName: string, propertyValue: string)
    returns (idx: seq<int>)
    requires PropertyMatches(frame, vs, propertyName, propertyValue).Success?
    ensures MatchedAt(frame, vs, propertyName, propertyValue, PropertyMatches(frame, vs, propertyName, propertyValue).value, idx)
  {
    if |vs| == 0 {
      idx := [];
    } else {
      var n := |vs| - 1;
      var rest := PropertyMatches(frame, vs[..n], propertyName, propertyValue).value;
      var prev := MatchedPositions(frame, vs[..n], propertyName, propertyValue);
      if Matches(frame, vs[n], propertyName, propertyValue) {
        MatchedAtKeep(frame, vs, propertyName, propertyValue, rest, prev);
        assert PropertyMatches(frame, vs, propertyName, propertyValue).value == rest + [Visualize(vs[n])];
        idx := prev + [n];
      } else {
        MatchedAtSkip(frame, vs, propertyName, propertyValue, rest, prev);
        assert PropertyMatches(frame, vs, propertyName, propertyValue).value == rest;
        idx := prev;
      }
    }
  }

  /** The filter keeps the order of the vertex list: its result is the
      in-order image of the matching vertices, one entry per matching position. */
  lemma PropertyMatchesInOrder(frame: KGFrame, vs: seq<Vertex>, propertyName: string, propertyValue: string)
    requires PropertyMatches(frame, vs, propertyName, propertyValue).Success?
    ensures exists idx :: MatchedAt(frame, vs, propertyName, propertyValue, PropertyMatches(frame, vs, propertyName, propertyValue).value, idx)
  {
    var idx := MatchedPositions(frame, vs, propertyName, propertyValue);
  }

  /** A requested value made only of white space is accepted by the argument
      check but never matches: the filter returns an empty list or throws. */
  lemma BlankValueMatchesNothing(frame: KGFrame, vs: seq<Vertex>, propertyName: string, propertyValue: string)
    requires IsBlank(propertyValue)
    requires PropertyMatches(frame, vs, propertyName, propertyValue).Success?
    ensures PropertyMatches(frame, vs, propertyName, propertyValue).value == []
  {
    PropertyMatchesMembers(frame, vs, propertyName, propertyValue);
  }

  /* ---------------- Scenario names and colors ---------------- */

  /** The scenario names as a list, in the set's enumeration order, which
      the model leaves open: any order may be chosen. */
  method GetScenarioNames(frame: KGFrame) returns (r: Option<seq<string>>)
    ensures r.None? <==> frame.scenarioNames.None? || frame.scenarioNames.value == {}
    ensures r.Some? ==>
              && Distinct(r.value)
              && (forall name :: name in r.value <==> name in frame.scenarioNames.value)
              && |r.value| == |frame.scenarioNames.value|
  {
    if frame.scenarioNames.None? || frame.scenarioNames.value == {} {
      return None;
    }
    var all := frame.scenarioNames.value;
    var rest := all;
    var names: seq<string> := [];
    while rest != {}
      invariant rest <= all
      invariant Distinct(names)
      invariant forall name :: name in names <==> name in all && name !in rest
      invariant |names| + |rest| == |all|
      decreases |rest|
    {
      var name :| name in rest;
      names := names + [name];
      rest := rest - {name};
    }
    return Some(names);
  }

  /** Every scenario's configs, in the dictionary's key order. */
  function Concat(entries: seq<ScenarioColors>): seq<ColorConfig> {
    if |entries| == 0 then [] else Concat(entries[..|entries| - 1]) + entries[|entries| - 1].configs
  }

  /** A config is in the aggregate exactly when some scenario lists it. */
  lemma {:induction false} ConcatMembers(entries: seq<ScenarioColors>)
    ensures forall c :: c in Concat(entries) <==> exists e :: e in entries && c in e.configs
  {
    if |entries| > 0 {
      var init := entries[..|entries| - 1];
      ConcatMembers(init);
      assert forall e :: e in init ==> e in entries;
      forall c | exists e :: e in entries && c in e.configs
        ensures c in Concat(entries)
      {
        var e :| e in entries && c in e.configs;
        if e != entries[|entries| - 1] {
          var k :| 0 <= k < |entries| && entries[k] == e;
          assert init[k] == e;
        }
      }
    }
  }

  /** The aggregate is as long as all the lists together. */
  function TotalConfigs(entries: seq<ScenarioColors>): nat {
    if |entries| == 0 then 0 else TotalConfigs(entries[..|entries| - 1]) + |entries[|entries| - 1].configs|
  }

  /** `colorConfigs[scenarioName]` after `ContainsKey`: null for an unknown scenario. */
  function ColorsOf(entries: seq<ScenarioColors>, scenarioName: string): (r: Option<seq<ColorConfig>>)
    ensures r.Some? ==> exists e :: e in entries && e.scenario == scenarioName && e.configs == r.value
    ensures r.None? ==> forall e :: e in entries ==> e.scenario != scenarioName
  {
    if |entries| == 0 then None
    else if entries[0].scenario == scenarioName then Some(entries[0].configs)
    else ColorsOf(entries[1..], scenarioName)
  }

  method GetColorConfigs(frame: KGFrame, scenarioName: string) returns (r: Option<seq<ColorConfig>>)
    ensures frame.colorMap.None? || |frame.colorMap.value| == 0 ==> r.None?
    ensures frame.colorMap.Some? && |frame.colorMap.value| > 0 && IsBlank(scenarioName) ==>
              && r == Some(Concat(frame.colorMap.value))
              && |r.value| == TotalConfigs(frame.colorMap.value)
    ensures frame.colorMap.Some? && |frame.colorMap.value| > 0 && !IsBlank(scenarioName) ==>
              r == ColorsOf(frame.colorMap.value, scenarioName)
  {
    var colorConfigs := frame.colorMap;
    if colorConfigs.None? || |colorConfigs.value| == 0 {
      return None;
    } else if IsBlank(scenarioName) {
      var entries := colorConfigs.value;
      var configs: seq<ColorConfig> := [];
      var i := 0;
      while i < |entries|
        invariant 0 <= i <= |entries|
        invariant configs == Concat(entries[..i])
        invariant |configs| == TotalConfigs(entries[..i])
      {
        assert entries[..i + 1][..i] == entries[..i];
        configs := configs + entries[i].configs;
        i := i + 1;
      }
      assert entries[..|entries|] == entries;
      return Some(configs);
    } else {
      return ColorsOf(colorConfigs.value, scenarioName);
    }
  }

  /* ---------------- Drawing by scenarios ---------------- */

  method GetVertexesAndEdgesByScenarios(frame: KGFrame, scenarios: seq<string>) returns (d: Drawing)
    ensures |d.vertexes| == |frame.vertexesByScenarios(scenarios)|
    ensures forall i :: 0 <= i < |d.vertexes| ==> d.vertexes[i] == Visualize(frame.vertexesByScenarios(scenarios)[i])
    ensures |d.edges| == |frame.relationsByScenarios(scenarios)|
    ensures forall i :: 0 <= i < |d.edges| ==> d.edges[i] == VisualizeEdge(frame.relationsByScenarios(scenarios)[i])
  {
    var catchedVertexes := frame.vertexesByScenarios(scenarios);
    var vvs: seq<VisVertex> := [];
    var i := 0;
    while i < |catchedVertexes|
      invariant 0 <= i <= |catchedVertexes|
      invariant |vvs| == i
      invariant forall k :: 0 <= k < i ==> vvs[k] == Visualize(catchedVertexes[k])
    {
      vvs := vvs + [ConvertVertex(Some(catchedVertexes[i])).value];
      i := i + 1;
    }
    var catchedEdges := frame.relationsByScenarios(scenarios);
    var ves: seq<VisEdge> := [];
    var j := 0;
    while j < |catchedEdges|
      invariant 0 <= j <= |catchedEdges|
      invariant |ves| == j
      invariant forall k :: 0 <= k < j ==> ves[k] == VisualizeEdge(catchedEdges[k])
    {
      ves := ves + [ConvertEdge(Some(catchedEdges[j])).value];
      j := j + 1;
    }
    return Drawing(vvs, ves);
  }

  /* ---------------- One-hop neighbourhood ---------------- */

  /** The state of GetConnectedVertexesAndEdges: `cIdSet` and the two lists. */
  datatype Scan = Scan(seen: set<string>, drawing: Drawing)

  const NothingSeen := Scan({}, Drawing([], []))

  /** One neighbour id listed under `e.relationType`: skipped if already
      seen, otherwise drawn with an edge oriented by `vIsSrc`; an id the
      frame does not know makes the source dereference null. */
  function ScanStep(frame: KGFrame, vId: string, vIsSrc: bool, r: Result<Scan, Error>, e: Entry): Result<Scan, Error> {
    match r
    case Failure(_) => r
    case Success(s) =>
      if e.id in s.seen then r
      else match frame.GetVertexById(e.id)
        case None => Failure(DanglingNeighbour(e.id))
        case Some(neighbour) =>
          var vRV := Visualize(neighbour);
          var vRE := if vIsSrc then VisEdge(vId, vRV.id, e.relationType) else VisEdge(vRV.id, vId, e.relationType);
          Success(Scan(s.seen + {e.id}, Drawing(s.drawing.vertexes + [vRV], s.drawing.edges + [vRE])))
  }

  function ScanAll(frame: KGFrame, vId: string, vIsSrc: bool, start: Result<Scan, Error>, es: seq<Entry>): Result<Scan, Error> {
    if |es| == 0 then start
    else ScanStep(frame, vId, vIsSrc, ScanAll(frame, vId, vIsSrc, start, es[..|es| - 1]), es[|es| - 1])
  }

  /** Scanning `a + b` is scanning `a`, then `b`. */
  lemma {:induction false} ScanAllAppend(frame: KGFrame, vId: string, vIsSrc: bool, start: Result<Scan, Error>, a: seq<Entry>, b: seq<Entry>)
    ensures ScanAll(frame, vId, vIsSrc, start, a + b) == ScanAll(frame, vId, vIsSrc, ScanAll(frame, vId, vIsSrc, start, a), b)
    decreases |b|
  {
    if |b| == 0 {
      assert a + b == a;
    } else {
      assert (a + b)[..|a + b| - 1] == a + b[..|b| - 1];
      ScanAllAppend(frame, vId, vIsSrc, start, a, b[..|b| - 1]);
    }
  }

  /** An exception ends the scan. */
  lemma {:induction false} ScanAllFailure(frame: KGFrame, vId: string, vIsSrc: bool, err: Error, es: seq<Entry>)
    ensures ScanAll(frame, vId, vIsSrc, Failure(err), es) == Failure(err)
  {
    if |es| > 0 {
      ScanAllFailure(frame, vId, vIsSrc, err, es[..|es| - 1]);
    }
  }

  /** What GetConnectedVertexesAndEdges returns for a dictionary of links. */
  function Connected(frame: KGFrame, vId: string, relationDict: seq<IdGroup>, vIsSrc: bool): Result<Drawing, Error> {
    match ScanAll(frame, vId, vIsSrc, Success(NothingSeen), Flatten(relationDict))
    case Failure(e) => Failure(e)
    case Success(s) => Success(s.drawing)
  }

  method GetConnectedVertexesAndEdges(frame: KGFrame, vId: string, relationDict: seq<IdGroup>, vIsSrc: bool)
    returns (r: Result<Drawing, Error>)
    ensures r == Connected(frame, vId, relationDict, vIsSrc)
  {
    var rVVs: seq<VisVertex> := [];
    var rVEs: seq<VisEdge> := [];
    var cIdSet: set<string> := {};
    if |relationDict| > 0 {
      var g := 0;
      while g < |relationDict|
        invariant 0 <= g <= |relationDict|
        invariant ScanAll(frame, vId, vIsSrc, Success(NothingSeen), Flatten(relationDict[..g])) == Success(Scan(cIdSet, Drawing(rVVs, rVEs)))
      {
        var scanned := ScanLinks(frame, vId, vIsSrc, cIdSet, rVVs, rVEs, relationDict[g]);
        assert relationDict[..g + 1][..g] == relationDict[..g];
        assert Flatten(relationDict[..g + 1]) == Flatten(relationDict[..g]) + Tag(relationDict[g]);
        ScanAllAppend(frame, vId, vIsSrc, Success(NothingSeen), Flatten(relationDict[..g]), Tag(relationDict[g]));
        if scanned.Failure? {
          FailureReachesEnd(frame, vId, vIsSrc, relationDict, g, scanned.error);
          return Failure(scanned.error);
        }
        cIdSet, rVVs, rVEs := scanned.value.seen, scanned.value.drawing.vertexes, scanned.value.drawing.edges;
        g := g + 1;
      }
      assert relationDict[..|relationDict|] == relationDict;
    }
    return Success(Drawing(rVVs, rVEs));
  }

  /** The inner foreach of GetConnectedVertexesAndEdges: the ids listed
      under one relation link, continuing from `cIdSet` and the lists so far. */
  method ScanLinks(frame: KGFrame, vId: string, vIsSrc: bool, cIdSet0: set<string>, rVVs0: seq<VisVertex>, rVEs0: seq<VisEdge>,
                   link: IdGroup)
    returns (r: Result<Scan, Error>)
    ensures r == ScanAll(frame, vId, vIsSrc, Success(Scan(cIdSet0, Drawing(rVVs0, rVEs0))), Tag(link))
  {
    var cIdSet, rVVs, rVEs := cIdSet0, rVVs0, rVEs0;
    ghost var start := Success(Scan(cIdSet0, Drawing(rVVs0, rVEs0)));
    var relationType := link.relationType;
    var ids := link.ids;
    var j := 0;
    while j < |ids|
      invariant 0 <= j <= |ids|
      invariant ScanAll(frame, vId, vIsSrc, start, Tag(IdGroup(relationType, ids[..j]))) == Success(Scan(cIdSet, Drawing(rVVs, rVEs)))
    {
      ScanNextId(frame, vId, vIsSrc, start, relationType, ids, j);
      var cId := ids[j];
      if cId in cIdSet {
        j := j + 1;
        continue;
      }
      cIdSet := cIdSet + {cId};
      var vRV := ConvertVertex(frame.GetVertexById(cId));
      if vRV.None? {
        // the source reads `vRV.id` of a null reference here
        ScanFailsWithin(frame, vId, vIsSrc, start, relationType, ids, j + 1, DanglingNeighbour(cId));
        return Failure(DanglingNeighbour(cId));
      }
      var vRE := if vIsSrc then VisEdge(vId, vRV.value.id, relationType) else VisEdge(vRV.value.id, vId, relationType);
      rVVs := rVVs + [vRV.value];
      rVEs := rVEs + [vRE];
      j := j + 1;
    }
    assert ids[..|ids|] == ids;
    return Success(Scan(cIdSet, Drawing(rVVs, rVEs)));
  }

  /** Scanning the first `j + 1` ids is scanning the first `j`, then id `j`. */
  lemma ScanNextId(frame: KGFrame, vId: string, vIsSrc: bool, start: Result<Scan, Error>, relationType: string, ids: seq<string>, j: nat)
    requires j < |ids|
    ensures ScanAll(frame, vId, vIsSrc, start, Tag(IdGroup(relationType, ids[..j + 1])))
            == ScanStep(frame, vId, vIsSrc, ScanAll(frame, vId, vIsSrc, start, Tag(IdGroup(relationType, ids[..j]))), Entry(relationType, ids[j]))
  {
    assert Tag(IdGroup(relationType, ids[..j + 1])) == Tag(IdGroup(relationType, ids[..j])) + [Entry(relationType, ids[j])];
    assert Tag(IdGroup(relationType, ids[..j + 1]))[..j] == Tag(IdGroup(relationType, ids[..j]));
  }

  /** A scan that fails within the first `k` ids of a link fails on the whole link. */
  lemma ScanFailsWithin(frame: KGFrame, vId: string, vIsSrc: bool, start: Result<Scan, Error>, relationType: string, ids: seq<string>,
                        k: nat, err: Error)
    requires k <= |ids|
    requires ScanAll(frame, vId, vIsSrc, start, Tag(IdGroup(relationType, ids[..k]))) == Failure(err)
    ensures ScanAll(frame, vId, vIsSrc, start, Tag(IdGroup(relationType, ids))) == Failure(err)
  {
    assert Tag(IdGroup(relationType, ids)) == Tag(IdGroup(relationType, ids[..k])) + Tag(IdGroup(relationType, ids[k..]));
    ScanAllAppend(frame, vId, vIsSrc, start, Tag(IdGroup(relationType, ids[..k])), Tag(IdGroup(relationType, ids[k..])));
    ScanAllFailure(frame, vId, vIsSrc, err, Tag(IdGroup(relationType, ids[k..])));
  }

  /** A scan that fails by the end of group `g` fails as a whole. */
  lemma FailureReachesEnd(frame: KGFrame, vId: string, vIsSrc: bool, relationDict: seq<IdGroup>, g: nat, err: Error)
    requires g < |relationDict|
    requires ScanAll(frame, vId, vIsSrc, Success(NothingSeen), Flatten(relationDict[..g + 1])) == Failure(err)
    ensures Connected(frame, vId, relationDict, vIsSrc) == Failure(err)
  {
    assert relationDict == relationDict[..g + 1] + relationDict[g + 1..];
    FlattenAppend(relationDict[..g + 1], relationDict[g + 1..]);
    ScanAllAppend(frame, vId, vIsSrc, Success(NothingSeen), Flatten(relationDict[..g + 1]), Flatten(relationDict[g + 1..]));
    ScanAllFailure(frame, vId, vIsSrc, err, Flatten(relationDict[g + 1..]));
  }

  /** The ids a sequence of entries lists. */
  function EntryIds(es: seq<Entry>): set<string> {
    set e | e in es :: e.id
  }

  /** The scan fails exactly when some listed id is unknown to the frame. */
  lemma {:induction false} ScanFails(frame: KGFrame, vId: string, vIsSrc: bool, es: seq<Entry>)
    ensures ScanAll(frame, vId, vIsSrc, Success(NothingSeen), es).Failure? <==> exists e :: e in es && e.id !in frame.vertexById
    ensures ScanAll(frame, vId, vIsSrc, Success(NothingSeen), es).Success? ==>
              ScanAll(frame, vId, vIsSrc, Success(NothingSeen), es).value.seen == EntryIds(es)
  {
    if |es| > 0 {
      var init := es[..|es| - 1];
      var e := es[|es| - 1];
      ScanFails(frame, vId, vIsSrc, init);
      assert forall x :: x in init ==> x in es;
      assert es == init + [e];
      if ScanAll(frame, vId, vIsSrc, Success(NothingSeen), init).Success? {
        assert forall x :: x in es ==> x in init || x == e;
        if e.id in EntryIds(init) {
          var x :| x in init && x.id == e.id;
        }
      }
    }
  }

  /** The scan's counts and orientation: one vertex and one edge per
      distinct listed id, every edge leaving `vId` when `vIsSrc` and
      entering it otherwise, its other end being the drawn neighbour. */
  lemma {:induction false} ScanShape(frame: KGFrame, vId: string, vIsSrc: bool, es: seq<Entry>)
    requires ScanAll(frame, vId, vIsSrc, Success(NothingSeen), es).Success?
    ensures var d := ScanAll(frame, vId, vIsSrc, Success(NothingSeen), es).value.drawing;
            && |d.vertexes| == |d.edges| == |ScanAll(frame, vId, vIsSrc, Success(NothingSeen), es).value.seen|
            && (forall i :: 0 <= i < |d.edges| ==> vIsSrc ==> d.edges[i].sourceId == vId && d.edges[i].targetId == d.vertexes[i].id)
            && (forall i :: 0 <= i < |d.edges| ==> !vIsSrc ==> d.edges[i].targetId == vId && d.edges[i].sourceId == d.vertexes[i].id)
  {
    if |es| > 0 {
      var init := es[..|es| - 1];
      ScanShape(frame, vId, vIsSrc, init);
    }
  }

  /** The drawn vertices' ids. */
  function VertexIds(vs: seq<VisVertex>): set<string> {
    set v | v in vs :: v.id
  }

  /** The first relation type under which `id` is listed. */
  function FirstListing(es: seq<Entry>, id: string): (r: Option<string>)
    ensures r.None? <==> id !in EntryIds(es)
  {
    if |es| == 0 then None
    else if es[0].id == id then Some(es[0].relationType)
    else
      assert EntryIds(es) == EntryIds(es[1..]) + {es[0].id} by {
        assert es == [es[0]] + es[1..];
      }
      FirstListing(es[1..], id)
  }

  /** Appending an entry does not change an id's first listing. */
  lemma {:induction false} FirstListingAppend(es: seq<Entry>, e: Entry, id: string)
    ensures FirstListing(es + [e], id) == if id in EntryIds(es) then FirstListing(es, id) else if e.id == id then Some(e.relationType) else None
  {
    if |es| > 0 {
      assert (es + [e])[1..] == es[1..] + [e];
      assert EntryIds(es) == EntryIds(es[1..]) + {es[0].id} by {
        assert es == [es[0]] + es[1..];
      }
      FirstListingAppend(es[1..], e, id);
    } else {
      assert [e][1..] == [];
    }
  }

  /** The drawn neighbours of a scan state: one vertex and one edge each,
      distinct ids that are exactly the seen ids, each the store's vertex
      under its id. */
  ghost predicate NeighboursDrawn(frame: KGFrame, s: Scan) {
    && |s.drawing.vertexes| == |s.drawing.edges|
    && VertexIds(s.drawing.vertexes) == s.seen
    && (forall i, j :: 0 <= i < j < |s.drawing.vertexes| ==> s.drawing.vertexes[i].id != s.drawing.vertexes[j].id)
    && (forall i :: 0 <= i < |s.drawing.vertexes| ==>
          s.drawing.vertexes[i].id in frame.vertexById
          && s.drawing.vertexes[i] == Visualize(frame.vertexById[s.drawing.vertexes[i].id]))
  }

  lemma ScanStepNeighbours(frame: KGFrame, vId: string, vIsSrc: bool, s0: Scan, e: Entry)
    requires frame.Consistent()
    requires NeighboursDrawn(frame, s0)
    requires ScanStep(frame, vId, vIsSrc, Success(s0), e).Success?
    ensures NeighboursDrawn(frame, ScanStep(frame, vId, vIsSrc, Success(s0), e).value)
  {
    if e.id !in s0.seen {
      var s := ScanStep(frame, vId, vIsSrc, Success(s0), e).value;
      var n := |s0.drawing.vertexes|;
      assert s.drawing.vertexes[n].id == e.id;
      forall i | 0 <= i < n
        ensures s.drawing.vertexes[i].id != e.id
      {
        assert s0.drawing.vertexes[i] in s0.drawing.vertexes;
      }
      assert VertexIds(s.drawing.vertexes) == VertexIds(s0.drawing.vertexes) + {e.id} by {
        assert s.drawing.vertexes == s0.drawing.vertexes + [s.drawing.vertexes[n]];
      }
    }
  }

  /** On a consistent frame the drawn neighbours are distinct, they are
      exactly the listed ids, and each is the store's vertex under that id. */
  lemma {:induction false} ScanNeighbours(frame: KGFrame, vId: string, vIsSrc: bool, es: seq<Entry>)
    requires frame.Consistent()
    requires ScanAll(frame, vId, vIsSrc, Success(NothingSeen), es).Success?
    ensures NeighboursDrawn(frame, ScanAll(frame, vId, vIsSrc, Success(NothingSeen), es).value)
  {
    if |es| > 0 {
      var init := es[..|es| - 1];
      ScanNeighbours(frame, vId, vIsSrc, init);
      ScanStepNeighbours(frame, vId, vIsSrc, ScanAll(frame, vId, vIsSrc, Success(NothingSeen), init).value, es[|es| - 1]);
    }
  }

  /** On a consistent frame each neighbour's edge carries the relation type
      of the first link that lists it. */
  lemma {:induction false} ScanFirstListing(frame: KGFrame, vId: string, vIsSrc: bool, es: seq<Entry>)
    requires frame.Consistent()
    requires ScanAll(frame, vId, vIsSrc, Success(NothingSeen), es).Success?
    ensures var d := ScanAll(frame, vId, vIsSrc, Success(NothingSeen), es).value.drawing;
            forall i :: 0 <= i < |d.vertexes| && i < |d.edges| ==> FirstListing(es, d.vertexes[i].id) == Some(d.edges[i].value)
  {
    if |es| > 0 {
      var init := es[..|es| - 1];
      var e := es[|es| - 1];
      assert es == init + [e];
      ScanFirstListing(frame, vId, vIsSrc, init);
      ScanNeighbours(frame, vId, vIsSrc, init);
      ScanFails(frame, vId, vIsSrc, init);
      var s0 := ScanAll(frame, vId, vIsSrc, Success(NothingSeen), init).value;
      var s1 := ScanAll(frame, vId, vIsSrc, Success(NothingSeen), es).value;
      assert Success(s1) == ScanStep(frame, vId, vIsSrc, Success(s0), e);
      forall i | 0 <= i < |s1.drawing.vertexes| && i < |s1.drawing.edges|
        ensures FirstListing(es, s1.drawing.vertexes[i].id) == Some(s1.drawing.edges[i].value)
      {
        if i < |s0.drawing.vertexes| {
          assert s1.drawing.vertexes[i] == s0.drawing.vertexes[i] && s1.drawing.edges[i] == s0.drawing.edges[i];
          assert s0.drawing.vertexes[i] in s0.drawing.vertexes;
          FirstListingAppend(init, e, s0.drawing.vertexes[i].id);
        } else {
          FirstListingAppend(init, e, e.id);
        }
      }
    }
  }

  /** GetConnectedVertexesAndEdges in full: it throws exactly when a listed
      id is unknown; otherwise it draws one vertex and one edge per distinct
      listed id, oriented by `vIsSrc`, and on a consistent frame the drawn
      vertices are the listed ones, each edge labelled with the relation
      type of the first link that lists its neighbour. */
  lemma ConnectedMeaning(frame: KGFrame, vId: string, relationDict: seq<IdGroup>, vIsSrc: bool)
    ensures Connected(frame, vId, relationDict, vIsSrc).Failure? <==>
              exists id :: id in NeighbourIds(relationDict) && id !in frame.vertexById
    ensures Connected(frame, vId, relationDict, vIsSrc).Success? ==>
              var d := Connected(frame, vId, relationDict, vIsSrc).value;
              && |d.vertexes| == |d.edges| == |NeighbourIds(relationDict)|
              && (forall i :: 0 <= i < |d.edges| ==> vIsSrc ==> d.edges[i].sourceId == vId && d.edges[i].targetId == d.vertexes[i].id)
              && (forall i :: 0 <= i < |d.edges| ==> !vIsSrc ==> d.edges[i].targetId == vId && d.edges[i].sourceId == d.vertexes[i].id)
    ensures Connected(frame, vId, relationDict, vIsSrc).Success? && frame.Consistent() ==>
              var d := Connected(frame, vId, relationDict, vIsSrc).value;
              && VertexIds(d.vertexes) == NeighbourIds(relationDict)
              && (forall i, j :: 0 <= i < j < |d.vertexes| ==> d.vertexes[i].id != d.vertexes[j].id)
              && (forall i :: 0 <= i < |d.vertexes| && i < |d.edges| ==>
                    d.vertexes[i].id in frame.vertexById
                    && d.vertexes[i] == Visualize(frame.vertexById[d.vertexes[i].id])
                    && FirstListing(Flatten(relationDict), d.vertexes[i].id) == Some(d.edges[i].value))
  {
    var es := Flatten(relationDict);
    assert NeighbourIds(relationDict) == EntryIds(es);
    ScanFails(frame, vId, vIsSrc, es);
    if Connected(frame, vId, relationDict, vIsSrc).Success? {
      ScanShape(frame, vId, vIsSrc, es);
      if frame.Consistent() {
        ScanNeighbours(frame, vId, vIsSrc, es);
        ScanFirstListing(frame, vId, vIsSrc, es);
      }
    }
  }

  /* ---------------- GetFirstLevelRelationships ---------------- */

  /** One pseudo-vertex per property, made by `gen` (KGUtility's
      GeneratePropertyVVertex, given the vertex label, the property name and
      its value), with an edge from the vertex labelled by the pseudo-vertex's
      display name. */
  function PropertyDrawing(gen: (string, string, string) -> VisVertex, vertex: Vertex, props: seq<VertexProperty>): (d: Drawing)
    ensures |d.vertexes| == |d.edges| == |props|
    ensures forall i :: 0 <= i < |props| ==>
              && d.vertexes[i] == gen(vertex.vertexLabel, props[i].name, props[i].value)
              && d.edges[i] == VisEdge(vertex.id, d.vertexes[i].id, d.vertexes[i].displayName)
  {
    if |props| == 0 then Drawing([], [])
    else
      var rest := PropertyDrawing(gen, vertex, props[..|props| - 1]);
      var vP := gen(vertex.vertexLabel, props[|props| - 1].name, props[|props| - 1].value);
      Drawing(rest.vertexes + [vP], rest.edges + [VisEdge(vertex.id, vP.id, vP.displayName)])
  }

  /** The neighbours through one link dictionary, none if it is null. */
  function Links(frame: KGFrame, vId: string, links: map<string, seq<IdGroup>>, vIsSrc: bool): Result<Drawing, Error> {
    if vId in links then Connected(frame, vId, links[vId], vIsSrc) else Success(Drawing([], []))
  }

  function Append(a: Drawing, b: Drawing): Drawing {
    Drawing(a.vertexes + b.vertexes, a.edges + b.edges)
  }

  /** GetFirstLevelRelationships: (null, null) for an unknown id, otherwise
      properties, then children, then parents. */
  function FirstLevel(frame: KGFrame, gen: (string, string, string) -> VisVertex, vId: string): Result<Option<Drawing>, Error> {
    if vId !in frame.vertexById then Success(None)
    else
      var vertex := frame.vertexById[vId];
      var props := PropertyDrawing(gen, vertex, vertex.properties);
      match Links(frame, vId, frame.childLinks, true)
      case Failure(e) => Failure(e)
      case Success(children) =>
        match Links(frame, vId, frame.parentLinks, false)
        case Failure(e) => Failure(e)
        case Success(parents) => Success(Some(Append(Append(props, children), parents)))
  }

  /** The property loop of GetFirstLevelRelationships: one pseudo-vertex and
      one edge from the vertex per property, in property order. */
  method DrawProperties(gen: (string, string, string) -> VisVertex, v: Vertex) returns (d: Drawing)
    ensures d == PropertyDrawing(gen, v, v.properties)
  {
    var rVVs: seq<VisVertex> := [];
    var rVEs: seq<VisEdge> := [];
    if |v.properties| > 0 {
      var i := 0;
      while i < |v.properties|
        invariant 0 <= i <= |v.properties|
        invariant Drawing(rVVs, rVEs) == PropertyDrawing(gen, v, v.properties[..i])
      {
        assert v.properties[..i + 1][..i] == v.properties[..i];
        var property := v.properties[i];
        var vP := gen(v.vertexLabel, property.name, property.value);
        rVVs := rVVs + [vP];
        var vEdge := VisEdge(v.id, vP.id, vP.displayName);
        rVEs := rVEs + [vEdge];
        i := i + 1;
      }
      assert v.properties[..|v.properties|] == v.properties;
    }
    d := Drawing(rVVs, rVEs);
  }

  method GetFirstLevelRelationships(frame: KGFrame, gen: (string, string, string) -> VisVertex, vId: string)
    returns (r: Result<Option<Drawing>, Error>)
    ensures r == FirstLevel(frame, gen, vId)
  {
    var vertex := frame.GetVertexById(vId);
    if vertex.None? {
      return Success(None);
    }
    var v := vertex.value;
    ghost var props := PropertyDrawing(gen, v, v.properties);
    var drawn := DrawProperties(gen, v);
    var rVVs, rVEs := drawn.vertexes, drawn.edges;
    if vId in frame.childLinks {
      var tmp := GetConnectedVertexesAndEdges(frame, vId, frame.childLinks[vId], true);
      if tmp.Failure? {
        return Failure(tmp.error);
      }
      rVVs := rVVs + tmp.value.vertexes;
      rVEs := rVEs + tmp.value.edges;
    }
    ghost var children := Links(frame, vId, frame.childLinks, true);
    assert children.Success? && Drawing(rVVs, rVEs) == Append(props, children.value);
    if vId in frame.parentLinks {
      var tmp := GetConnectedVertexesAndEdges(frame, vId, frame.parentLinks[vId], false);
      if tmp.Failure? {
        return Failure(tmp.error);
      }
      rVVs := rVVs + tmp.value.vertexes;
      rVEs := rVEs + tmp.value.edges;
    }
    ghost var parents := Links(frame, vId, frame.parentLinks, false);
    assert parents.Success? && Drawing(rVVs, rVEs) == Append(Append(props, children.value), parents.value);
    return Success(Some(Drawing(rVVs, rVEs)));
  }

  /** The number of neighbours drawn through one link dictionary. */
  function LinkCount(links: map<string, seq<IdGroup>>, vId: string): nat {
    if vId in links then |NeighbourIds(links[vId])| else 0
  }

  /** The ids listed in one link dictionary, none if it is null. */
  function LinkedIds(links: map<string, seq<IdGroup>>, vId: string): set<string> {
    if vId in links then NeighbourIds(links[vId]) else {}
  }

  lemma LinksShape(frame: KGFrame, vId: string, links: map<string, seq<IdGroup>>, vIsSrc: bool)
    requires Links(frame, vId, links, vIsSrc).Success?
    ensures var d := Links(frame, vId, links, vIsSrc).value;
            && |d.vertexes| == |d.edges| == LinkCount(links, vId)
            && (forall i :: 0 <= i < |d.edges| ==> vIsSrc ==> d.edges[i].sourceId == vId && d.edges[i].targetId == d.vertexes[i].id)
            && (forall i :: 0 <= i < |d.edges| ==> !vIsSrc ==> d.edges[i].targetId == vId && d.edges[i].sourceId == d.vertexes[i].id)
  {
    if vId in links {
      ScanShape(frame, vId, vIsSrc, Flatten(links[vId]));
      ScanFails(frame, vId, vIsSrc, Flatten(links[vId]));
    }
  }

  /** Three drawings laid end to end: position `i` of the whole is
      position `i` of its section. */
  lemma AppendAt(a: Drawing, b: Drawing, c: Drawing, i: int)
    requires |a.vertexes| == |a.edges| && |b.vertexes| == |b.edges| && |c.vertexes| == |c.edges|
    requires 0 <= i < |a.vertexes| + |b.vertexes| + |c.vertexes|
    ensures var d := Append(Append(a, b), c);
            var n, m := |a.vertexes|, |a.vertexes| + |b.vertexes|;
            && |d.vertexes| == |d.edges| == |a.vertexes| + |b.vertexes| + |c.vertexes|
            && (i < n ==> d.vertexes[i] == a.vertexes[i] && d.edges[i] == a.edges[i])
            && (n <= i < m ==> d.vertexes[i] == b.vertexes[i - n] && d.edges[i] == b.edges[i - n])
            && (m <= i ==> d.vertexes[i] == c.vertexes[i - m] && d.edges[i] == c.edges[i - m])
  {
  }

  /** The result for a known vertex: its properties' pseudo-vertices and
      edges first, one each per property; then one vertex per distinct child
      with an edge from the vertex; then one per distinct parent with an
      edge into the vertex. */
  lemma FirstLevelLayout(frame: KGFrame, gen: (string, string, string) -> VisVertex, vId: string, d: Drawing)
    requires FirstLevel(frame, gen, vId) == Success(Some(d))
    ensures vId in frame.vertexById
    ensures var v := frame.vertexById[vId];
            var n := |v.properties|;
            var c := LinkCount(frame.childLinks, vId);
            && |d.vertexes| == |d.edges| == n + c + LinkCount(frame.parentLinks, vId)
            && (forall i :: 0 <= i < n ==>
                  && d.vertexes[i] == gen(v.vertexLabel, v.properties[i].name, v.properties[i].value)
                  && d.edges[i] == VisEdge(v.id, d.vertexes[i].id, d.vertexes[i].displayName))
            && (forall i :: n <= i < n + c ==> d.edges[i].sourceId == vId && d.edges[i].targetId == d.vertexes[i].id)
            && (forall i :: n + c <= i < |d.edges| ==> d.edges[i].targetId == vId && d.edges[i].sourceId == d.vertexes[i].id)
  {
    FirstLevelParts(frame, gen, vId, d);
    var v := frame.vertexById[vId];
    var props := PropertyDrawing(gen, v, v.properties);
    var children := Links(frame, vId, frame.childLinks, true).value;
    var parents := Links(frame, vId, frame.parentLinks, false).value;
    LinksShape(frame, vId, frame.childLinks, true);
    LinksShape(frame, vId, frame.parentLinks, false);
    var n, c := |props.vertexes|, |children.vertexes|;
    assert d.vertexes == props.vertexes + children.vertexes + parents.vertexes;
    assert d.edges == props.edges + children.edges + parents.edges;
    forall i | 0 <= i < |d.edges|
      ensures i < n ==> d.vertexes[i] == gen(v.vertexLabel, v.properties[i].name, v.properties[i].value)
                        && d.edges[i] == VisEdge(v.id, d.vertexes[i].id, d.vertexes[i].displayName)
      ensures n <= i < n + c ==> d.edges[i].sourceId == vId && d.edges[i].targetId == d.vertexes[i].id
      ensures n + c <= i ==> d.edges[i].targetId == vId && d.edges[i].sourceId == d.vertexes[i].id
    {
      AppendAt(props, children, parents, i);
    }
  }

  /** (null, null) exactly for an unknown id; an exception exactly when a
      listed child or parent id is unknown to the frame. */
  lemma FirstLevelOutcome(frame: KGFrame, gen: (string, string, string) -> VisVertex, vId: string)
    ensures FirstLevel(frame, gen, vId) == Success(None) <==> vId !in frame.vertexById
    ensures FirstLevel(frame, gen, vId).Failure? <==>
              vId in frame.vertexById &&
              exists id :: (id in LinkedIds(frame.childLinks, vId) || id in LinkedIds(frame.parentLinks, vId)) && id !in frame.vertexById
  {
    if vId in frame.childLinks {
      ScanFails(frame, vId, true, Flatten(frame.childLinks[vId]));
    }
    if vId in frame.parentLinks {
      ScanFails(frame, vId, false, Flatten(frame.parentLinks[vId]));
    }
  }

  /** A neighbour in the listed ids of a successful scan is drawn at some position. */
  lemma DrawnSomewhere(frame: KGFrame, vId: string, links: map<string, seq<IdGroup>>, vIsSrc: bool, id: string)
    requires frame.Consistent()
    requires Links(frame, vId, links, vIsSrc).Success?
    requires id in LinkedIds(links, vId)
    ensures id in frame.vertexById
    ensures exists i :: 0 <= i < |Links(frame, vId, links, vIsSrc).value.vertexes| &&
              Links(frame, vId, links, vIsSrc).value.vertexes[i] == Visualize(frame.vertexById[id])
  {
    var es := Flatten(links[vId]);
    ScanFails(frame, vId, vIsSrc, es);
    ScanNeighbours(frame, vId, vIsSrc, es);
    var vs := Links(frame, vId, links, vIsSrc).value.vertexes;
    assert id in VertexIds(vs);
    var w :| w in vs && w.id == id;
  }

  /** A drawing FirstLevel returns is made of its three parts. */
  lemma FirstLevelParts(frame: KGFrame, gen: (string, string, string) -> VisVertex, vId: string, d: Drawing)
    requires FirstLevel(frame, gen, vId) == Success(Some(d))
    ensures vId in frame.vertexById
    ensures Links(frame, vId, frame.childLinks, true).Success? && Links(frame, vId, frame.parentLinks, false).Success?
    ensures d == Append(Append(PropertyDrawing(gen, frame.vertexById[vId], frame.vertexById[vId].properties),
                               Links(frame, vId, frame.childLinks, true).value),
                        Links(frame, vId, frame.parentLinks, false).value)
  {
  }

  /** De-duplication is per dictionary: a vertex that is both a child and a
      parent of `vId` is drawn twice, once with an edge from `vId` and once
      with an edge into it. */
  lemma ChildAndParentDrawnTwice(frame: KGFrame, gen: (string, string, string) -> VisVertex, vId: string, d: Drawing, id: string)
    requires frame.Consistent()
    requires FirstLevel(frame, gen, vId) == Success(Some(d))
    requires id in LinkedIds(frame.childLinks, vId) && id in LinkedIds(frame.parentLinks, vId)
    ensures id in frame.vertexById
    ensures exists i, j :: 0 <= i < j < |d.vertexes| && |d.edges| == |d.vertexes|
              && d.vertexes[i] == d.vertexes[j] == Visualize(frame.vertexById[id])
              && d.edges[i].sourceId == vId && d.edges[j].targetId == vId
  {
    FirstLevelParts(frame, gen, vId, d);
    var props := PropertyDrawing(gen, frame.vertexById[vId], frame.vertexById[vId].properties);
    var children := Links(frame, vId, frame.childLinks, true).value;
    var parents := Links(frame, vId, frame.parentLinks, false).value;
    LinksShape(frame, vId, frame.childLinks, true);
    LinksShape(frame, vId, frame.parentLinks, false);
    DrawnSomewhere(frame, vId, frame.childLinks, true, id);
    DrawnSomewhere(frame, vId, frame.parentLinks, false, id);
    var x := Visualize(frame.vertexById[id]);
    var a :| 0 <= a < |children.vertexes| && children.vertexes[a] == x;
    var b :| 0 <= b < |parents.vertexes| && parents.vertexes[b] == x;
    var i, j := |props.vertexes| + a, |props.vertexes| + |children.vertexes| + b;
    assert d.vertexes[i] == x && d.edges[i].sourceId == vId by {
      assert d.vertexes[i] == children.vertexes[a] && d.edges[i] == children.edges[a];
    }
    assert d.vertexes[j] == x && d.edges[j].targetId == vId by {
      assert d.vertexes[j] == parents.vertexes[b] && d.edges[j] == parents.edges[b];
    }
    assert 0 <= i < j < |d.vertexes| && |d.edges| == |d.vertexes|;
  }
}
