/**
 * DataManager.FilterGraph: from a resolved start vertex, expand vertices
 * one after another from a worklist, filing the leaf children that pass the
 * attribute filter under their relation type and appending the non-leaf
 * children to the worklist.
 *
 * Termination deviation: the method as written keeps no visited set, so a
 * cycle reachable from the start vertex makes it run forever, and a null
 * child dictionary makes it `continue` without advancing its index, which
 * also runs forever (CycleNeverReturns exhibits the first on a
 * self-looping example store, NullChildMapSpins the second on any store).
 * FilterGraph below is given a `fuel` bound on the number
 * of vertices it expands: within that bound it does exactly what the source
 * does, it reports `Spins` where the source provably loops on the same
 * vertex, and `OutOfFuel` when the bound is used up. FilterGraphVisited is
 * the corrected traversal, with a visited set, which terminates on every
 * graph without fuel.
 */
module FilterGraphTraversal {
  import opened Wrappers
  import opened Sequences
  import opened KnowledgeGraph
  import opened DataManager

  /** The state the loop changes: the result dictionary and the worklist
      (`tobeProcessedVertexes`). */
  datatype Progress = Progress(results: map<string, seq<Vertex>>, worklist: seq<Vertex>)

  /** How a call ends: it returns (null, or a dictionary), it loops forever
      on a null child dictionary, or it is still running when the fuel is
      used up. */
  datatype Outcome =
    | Returned(result: Option<map<string, seq<Vertex>>>)
    | Spins
    | OutOfFuel

  /** One child id, met while `expanded` is being expanded. A leaf that
      passes the filter is appended to its relation type's bucket; when the
      bucket does not exist yet, the new bucket holds `expanded`, not the
      leaf, exactly as the source writes it. A non-leaf child is queued. */
  function Visit(store: KGStore, attributes: Option<seq<AttributePair>>, expanded: Vertex, p: Progress, e: Entry): Progress {
    match store.GetVertexById(e.id)
    case None => p
    case Some(child) =>
      if !store.IsLeaf(child) then p.(worklist := p.worklist + [child])
      else if !Selected(store, child, attributes) then p
      else if e.relationType in p.results then
        p.(results := p.results[e.relationType := p.results[e.relationType] + [child]])
      else p.(results := p.results[e.relationType := [expanded]])
  }

  /** All children of one vertex, in dictionary order. */
  function VisitAll(store: KGStore, attributes: Option<seq<AttributePair>>, expanded: Vertex, p: Progress, es: seq<Entry>): Progress {
    if |es| == 0 then p
    else Visit(store, attributes, expanded, VisitAll(store, attributes, expanded, p, es[..|es| - 1]), es[|es| - 1])
  }

  /** Visiting `a + b` is visiting `a`, then `b`. */
  lemma {:induction false} VisitAllAppend(store: KGStore, attributes: Option<seq<AttributePair>>, expanded: Vertex,
                                          p: Progress, a: seq<Entry>, b: seq<Entry>)
    ensures VisitAll(store, attributes, expanded, p, a + b)
            == VisitAll(store, attributes, expanded, VisitAll(store, attributes, expanded, p, a), b)
    decreases |b|
  {
    if |b| == 0 {
      assert a + b == a;
    } else {
      assert (a + b)[..|a + b| - 1] == a + b[..|b| - 1];
      VisitAllAppend(store, attributes, expanded, p, a, b[..|b| - 1]);
    }
  }

  /** The worklist loop from position `index`, allowed `fuel` expansions. */
  function Run(store: KGStore, scenarioName: string, relationTypeSet: Option<seq<string>>,
               attributes: Option<seq<AttributePair>>, p: Progress, index: nat, fuel: nat): Outcome
    decreases fuel
  {
    if index >= |p.worklist| then Returned(Some(p.results))
    else if fuel == 0 then OutOfFuel
    else match ChildGroups(store, p.worklist[index].id, relationTypeSet, scenarioName)
      case None => Spins
      case Some(groups) =>
        var expanded := p.worklist[index];
        Run(store, scenarioName, relationTypeSet, attributes,
            VisitAll(store, attributes, expanded, p, Flatten(groups)), index + 1, fuel - 1)
  }

  /** The whole of FilterGraph: start-name resolution, the start vertex
      (which must pass the filters itself), then the loop. */
  function FilterGraphSpec(store: KGStore, nlu: NLUStore, startVertexName: string, scenarioName: string,
                           relationTypeSet: Option<seq<string>>, attributes: Option<seq<AttributePair>>, fuel: nat): Outcome
  {
    match StartName(nlu, startVertexName, scenarioName)
    case None => Returned(None)
    case Some(name) =>
      match SearchGraph(store, nlu, name, scenarioName, attributes)
      case None => Returned(None)
      case Some(start) => Run(store, scenarioName, relationTypeSet, attributes, Progress(map[], [start]), 0, fuel)
  }

  method FilterGraph(store: KGStore, nlu: NLUStore, startVertexName: string, scenarioName: string,
                     relationTypeSet: Option<seq<string>>, attributes: Option<seq<AttributePair>>, fuel: nat)
    returns (outcome: Outcome)
    ensures outcome == FilterGraphSpec(store, nlu, startVertexName, scenarioName, relationTypeSet, attributes, fuel)
  {
    var name := StartName(nlu, startVertexName, scenarioName);
    if name.None? {
      return Returned(None);
    }
    var startVertex := SearchGraph(store, nlu, name.value, scenarioName, attributes);
    if startVertex.None? {
      return Returned(None);
    }
    var results: map<string, seq<Vertex>> := map[];
    var tobeProcessedVertexes := [startVertex.value];
    var index := 0;
    var fuelLeft := fuel;
    ghost var target := Run(store, scenarioName, relationTypeSet, attributes, Progress(results, tobeProcessedVertexes), index, fuelLeft);
    assert target == FilterGraphSpec(store, nlu, startVertexName, scenarioName, relationTypeSet, attributes, fuel);
    while index < |tobeProcessedVertexes|
      invariant Run(store, scenarioName, relationTypeSet, attributes, Progress(results, tobeProcessedVertexes), index, fuelLeft) == target
      decreases fuelLeft
    {
      if fuelLeft == 0 {
        return OutOfFuel;
      }
      var vertex := tobeProcessedVertexes[index];
      var childrenIds := CollectChildIds(store, vertex.id, relationTypeSet, scenarioName);
      if childrenIds.None? {
        // the source's `continue` skips `index += 1`: same vertex, same null dictionary, forever
        return Spins;
      }
      results, tobeProcessedVertexes := ExpandVertex(store, attributes, vertex, results, tobeProcessedVertexes, childrenIds.value);
      assert target == Run(store, scenarioName, relationTypeSet, attributes, Progress(results, tobeProcessedVertexes), index + 1, fuelLeft - 1);
      index := index + 1;
      fuelLeft := fuelLeft - 1;
    }
    return Returned(Some(results));
  }

  /** The body of the worklist loop for one vertex: the nested foreach over
      its child dictionary. */
  method ExpandVertex(store: KGStore, attributes: Option<seq<AttributePair>>, vertex: Vertex,
                      results0: map<string, seq<Vertex>>, worklist0: seq<Vertex>, groups: seq<IdGroup>)
    returns (results: map<string, seq<Vertex>>, tobeProcessedVertexes: seq<Vertex>)
    ensures Progress(results, tobeProcessedVertexes) == VisitAll(store, attributes, vertex, Progress(results0, worklist0), Flatten(groups))
  {
    results, tobeProcessedVertexes := results0, worklist0;
    ghost var p0 := Progress(results0, worklist0);
    var g := 0;
    while g < |groups|
      invariant 0 <= g <= |groups|
      invariant Progress(results, tobeProcessedVertexes) == VisitAll(store, attributes, vertex, p0, Flatten(groups[..g]))
    {
      results, tobeProcessedVertexes := VisitChildren(store, attributes, vertex, results, tobeProcessedVertexes, groups[g]);
      assert groups[..g + 1][..g] == groups[..g];
      assert Flatten(groups[..g + 1]) == Flatten(groups[..g]) + Tag(groups[g]);
      VisitAllAppend(store, attributes, vertex, p0, Flatten(groups[..g]), Tag(groups[g]));
      g := g + 1;
    }
    assert groups[..|groups|] == groups;
  }

  /** The inner foreach: the ids listed under one relation type. */
  method VisitChildren(store: KGStore, attributes: Option<seq<AttributePair>>, vertex: Vertex,
                       results0: map<string, seq<Vertex>>, worklist0: seq<Vertex>, group: IdGroup)
    returns (results: map<string, seq<Vertex>>, tobeProcessedVertexes: seq<Vertex>)
    ensures Progress(results, tobeProcessedVertexes) == VisitAll(store, attributes, vertex, Progress(results0, worklist0), Tag(group))
  {
    results, tobeProcessedVertexes := results0, worklist0;
    ghost var p0 := Progress(results0, worklist0);
    var relationType := group.relationType;
    var ids := group.ids;
    var j := 0;
    while j < |ids|
      invariant 0 <= j <= |ids|
      invariant Progress(results, tobeProcessedVertexes) == VisitAll(store, attributes, vertex, p0, Tag(IdGroup(relationType, ids[..j])))
    {
      VisitNextId(store, attributes, vertex, p0, relationType, ids, j);
      ghost var before := Progress(results, tobeProcessedVertexes);
      var child := store.GetVertexById(ids[j]);
      if child.Some? {
        if store.IsLeaf(child.value) {
          var selected := IsSelected(store, child.value, attributes);
          if selected {
            if relationType in results {
              results := results[relationType := results[relationType] + [child.value]];
            } else {
              results := results[relationType := [vertex]];
            }
          }
        } else {
          tobeProcessedVertexes := tobeProcessedVertexes + [child.value];
        }
      }
      assert Progress(results, tobeProcessedVertexes) == Visit(store, attributes, vertex, before, Entry(relationType, ids[j]));
      j := j + 1;
    }
    assert ids[..|ids|] == ids;
  }

  /** Visiting the first `j + 1` ids is visiting the first `j`, then id `j`. */
  lemma VisitNextId(store: KGStore, attributes: Option<seq<AttributePair>>, expanded: Vertex, p: Progress,
                    relationType: string, ids: seq<string>, j: nat)
    requires j < |ids|
    ensures VisitAll(store, attributes, expanded, p, Tag(IdGroup(relationType, ids[..j + 1])))
            == Visit(store, attributes, expanded, VisitAll(store, attributes, expanded, p, Tag(IdGroup(relationType, ids[..j]))), Entry(relationType, ids[j]))
  {
    assert Tag(IdGroup(relationType, ids[..j + 1])) == Tag(IdGroup(relationType, ids[..j])) + [Entry(relationType, ids[j])];
    assert Tag(IdGroup(relationType, ids[..j + 1]))[..j] == Tag(IdGroup(relationType, ids[..j]));
  }

  /* ---------------- What the result holds ---------------- */

  /** A vertex the traversal may file after a bucket's first entry: an
      existing leaf that passes the attribute filter. */
  predicate Recorded(store: KGStore, attributes: Option<seq<AttributePair>>, v: Vertex) {
    store.IsLeaf(v) && Selected(store, v, attributes) && v in store.vertexById.Values
  }

  /** A bucket of the loop state: its key is a requested relation type, its
      first entry is a vertex already taken from the worklist (the one being
      expanded when the bucket was made), the rest are recorded leaves. */
  ghost predicate BucketShaped(store: KGStore, attributes: Option<seq<AttributePair>>, relationTypeSet: Option<seq<string>>,
                               p: Progress, bound: nat, k: string)
    requires k in p.results
    requires bound <= |p.worklist|
  {
    && (relationTypeSet.Some? ==> k in relationTypeSet.value)
    && |p.results[k]| > 0
    && p.results[k][0] in p.worklist[..bound]
    && forall j :: 1 <= j < |p.results[k]| ==> Recorded(store, attributes, p.results[k][j])
  }

  /** The loop invariant: the worklist starts with the start vertex and
      otherwise holds non-leaf vertices of the store; every bucket is shaped. */
  ghost predicate Shaped(store: KGStore, attributes: Option<seq<AttributePair>>, relationTypeSet: Option<seq<string>>,
                         start: Vertex, p: Progress, bound: nat)
  {
    && 0 < |p.worklist| && p.worklist[0] == start && bound <= |p.worklist|
    && (forall i :: 0 < i < |p.worklist| ==> !store.IsLeaf(p.worklist[i]) && p.worklist[i] in store.vertexById.Values)
    && (forall k :: k in p.results ==> BucketShaped(store, attributes, relationTypeSet, p, bound, k))
  }

  /** A returned dictionary: keys are requested relation types; each
      bucket's first entry is the start vertex or a non-leaf vertex of the
      store, and its other entries are leaves of the store that pass the
      attribute filter. */
  ghost predicate ResultShaped(store: KGStore, attributes: Option<seq<AttributePair>>, relationTypeSet: Option<seq<string>>,
                               start: Vertex, m: map<string, seq<Vertex>>)
  {
    forall k :: k in m ==>
      && (relationTypeSet.Some? ==> k in relationTypeSet.value)
      && |m[k]| > 0
      && (m[k][0] == start || (!store.IsLeaf(m[k][0]) && m[k][0] in store.vertexById.Values))
      && forall j :: 1 <= j < |m[k]| ==> Recorded(store, attributes, m[k][j])
  }

  /** Visiting one child while `q.worklist[index]` is expanded keeps the
      loop invariant and only ever appends to the worklist. */
  lemma VisitShaped(store: KGStore, attributes: Option<seq<AttributePair>>, relationTypeSet: Option<seq<string>>,
                    start: Vertex, q: Progress, index: nat, e: Entry)
    requires index < |q.worklist|
    requires Shaped(store, attributes, relationTypeSet, start, q, index + 1)
    requires relationTypeSet.Some? ==> e.relationType in relationTypeSet.value
    ensures var r := Visit(store, attributes, q.worklist[index], q, e);
            Shaped(store, attributes, relationTypeSet, start, r, index + 1)
            && |q.worklist| <= |r.worklist| && r.worklist[..|q.worklist|] == q.worklist
  {
    var expanded := q.worklist[index];
    var r := Visit(store, attributes, expanded, q, e);
    if e.id in store.vertexById {
      var child := store.vertexById[e.id];
      assert child in store.vertexById.Values;
      if !store.IsLeaf(child) {
        assert r.worklist[..index + 1] == q.worklist[..index + 1];
        forall k | k in r.results
          ensures BucketShaped(store, attributes, relationTypeSet, r, index + 1, k)
        {
          assert BucketShaped(store, attributes, relationTypeSet, q, index + 1, k);
        }
      } else if Selected(store, child, attributes) {
        forall k | k in r.results
          ensures BucketShaped(store, attributes, relationTypeSet, r, index + 1, k)
        {
          if k != e.relationType {
            assert BucketShaped(store, attributes, relationTypeSet, q, index + 1, k);
          } else if e.relationType in q.results {
            assert BucketShaped(store, attributes, relationTypeSet, q, index + 1, k);
            assert r.results[k] == q.results[k] + [child];
          } else {
            assert r.results[k] == [expanded];
            assert expanded == q.worklist[..index + 1][index];
          }
        }
      }
    }
  }

  /** Expanding `p.worklist[index]` keeps the loop invariant and only ever
      appends to the worklist. */
  lemma {:induction false} VisitAllShaped(store: KGStore, attributes: Option<seq<AttributePair>>, relationTypeSet: Option<seq<string>>,
                                          start: Vertex, p: Progress, index: nat, es: seq<Entry>)
    requires index < |p.worklist|
    requires Shaped(store, attributes, relationTypeSet, start, p, index + 1)
    requires relationTypeSet.Some? ==> forall e :: e in es ==> e.relationType in relationTypeSet.value
    ensures var q := VisitAll(store, attributes, p.worklist[index], p, es);
            Shaped(store, attributes, relationTypeSet, start, q, index + 1)
            && |p.worklist| <= |q.worklist| && q.worklist[..|p.worklist|] == p.worklist
  {
    var expanded := p.worklist[index];
    if |es| > 0 {
      var init := es[..|es| - 1];
      var e := es[|es| - 1];
      assert forall x :: x in init ==> x in es;
      VisitAllShaped(store, attributes, relationTypeSet, start, p, index, init);
      var q := VisitAll(store, attributes, expanded, p, init);
      assert q.worklist[index] == expanded by {
        assert q.worklist[..|p.worklist|][index] == p.worklist[index];
      }
      VisitShaped(store, attributes, relationTypeSet, start, q, index, e);
      var r := Visit(store, attributes, expanded, q, e);
      assert r.worklist[..|p.worklist|] == r.worklist[..|q.worklist|][..|p.worklist|];
    }
  }

  /** A shaped state whose worklist is used up holds a shaped dictionary. */
  lemma FinishedShaped(store: KGStore, attributes: Option<seq<AttributePair>>, relationTypeSet: Option<seq<string>>,
                       start: Vertex, p: Progress, index: nat)
    requires Shaped(store, attributes, relationTypeSet, start, p, index)
    requires index >= |p.worklist|
    ensures ResultShaped(store, attributes, relationTypeSet, start, p.results)
  {
    var m := p.results;
    forall k | k in m
      ensures m[k][0] == start || (!store.IsLeaf(m[k][0]) && m[k][0] in store.vertexById.Values)
    {
      assert BucketShaped(store, attributes, relationTypeSet, p, index, k);
      var i :| 0 <= i < index && p.worklist[i] == m[k][0];
    }
  }

  /** Expanding the vertex at `index` of a shaped state gives a state
      shaped one position further. */
  lemma ExpandShaped(store: KGStore, scenarioName: string, relationTypeSet: Option<seq<string>>,
                     attributes: Option<seq<AttributePair>>, start: Vertex, p: Progress, index: nat)
    requires Shaped(store, attributes, relationTypeSet, start, p, index)
    requires index < |p.worklist|
    requires ChildGroups(store, p.worklist[index].id, relationTypeSet, scenarioName).Some?
    ensures var groups := ChildGroups(store, p.worklist[index].id, relationTypeSet, scenarioName).value;
            Shaped(store, attributes, relationTypeSet, start,
                   VisitAll(store, attributes, p.worklist[index], p, Flatten(groups)), index + 1)
  {
    var groups := ChildGroups(store, p.worklist[index].id, relationTypeSet, scenarioName).value;
    var es := Flatten(groups);
    if relationTypeSet.Some? {
      PickGroupsFromStore(store, p.worklist[index].id, relationTypeSet.value, scenarioName);
      FlattenEntries(groups);
      forall e | e in es
        ensures e.relationType in relationTypeSet.value
      {
        var g :| g in groups && g.relationType == e.relationType;
      }
    }
    assert Shaped(store, attributes, relationTypeSet, start, p, index + 1) by {
      forall k | k in p.results
        ensures BucketShaped(store, attributes, relationTypeSet, p, index + 1, k)
      {
        assert BucketShaped(store, attributes, relationTypeSet, p, index, k);
        assert p.worklist[..index] <= p.worklist[..index + 1];
      }
    }
    VisitAllShaped(store, attributes, relationTypeSet, start, p, index, es);
  }

  /** The loop, run to completion from a shaped state, returns a shaped
      dictionary. */
  lemma {:induction false} RunShaped(store: KGStore, scenarioName: string, relationTypeSet: Option<seq<string>>,
                                     attributes: Option<seq<AttributePair>>, start: Vertex, p: Progress, index: nat, fuel: nat,
                                     m: map<string, seq<Vertex>>)
    requires Shaped(store, attributes, relationTypeSet, start, p, index)
    requires Run(store, scenarioName, relationTypeSet, attributes, p, index, fuel) == Returned(Some(m))
    ensures ResultShaped(store, attributes, relationTypeSet, start, m)
    decreases fuel
  {
    if index >= |p.worklist| {
      FinishedShaped(store, attributes, relationTypeSet, start, p, index);
    } else {
      var groups := ChildGroups(store, p.worklist[index].id, relationTypeSet, scenarioName).value;
      ExpandShaped(store, scenarioName, relationTypeSet, attributes, start, p, index);
      RunShaped(store, scenarioName, relationTypeSet, attributes, start,
                VisitAll(store, attributes, p.worklist[index], p, Flatten(groups)), index + 1, fuel - 1, m);
    }
  }

  /** What FilterGraph returns when it returns a dictionary: the start name
      resolved, the start vertex was found, and the dictionary is shaped as
      ResultShaped says; in particular each bucket's first entry is the
      start vertex or a non-leaf store vertex, never a leaf other than the
      start. */
  lemma FilterGraphBuckets(store: KGStore, nlu: NLUStore, startVertexName: string, scenarioName: string,
                           relationTypeSet: Option<seq<string>>, attributes: Option<seq<AttributePair>>, fuel: nat,
                           m: map<string, seq<Vertex>>)
    requires FilterGraphSpec(store, nlu, startVertexName, scenarioName, relationTypeSet, attributes, fuel) == Returned(Some(m))
    ensures StartName(nlu, startVertexName, scenarioName).Some?
    ensures SearchGraph(store, nlu, StartName(nlu, startVertexName, scenarioName).value, scenarioName, attributes).Some?
    ensures ResultShaped(store, attributes, relationTypeSet,
                         SearchGraph(store, nlu, StartName(nlu, startVertexName, scenarioName).value, scenarioName, attributes).value, m)
  {
    var name := StartName(nlu, startVertexName, scenarioName).value;
    var start := SearchGraph(store, nlu, name, scenarioName, attributes).value;
    RunShaped(store, scenarioName, relationTypeSet, attributes, start, Progress(map[], [start]), 0, fuel, m);
  }

  /** The loop itself never returns null. */
  lemma {:induction false} RunNeverNull(store: KGStore, scenarioName: string, relationTypeSet: Option<seq<string>>,
                                        attributes: Option<seq<AttributePair>>, p: Progress, index: nat, fuel: nat)
    ensures Run(store, scenarioName, relationTypeSet, attributes, p, index, fuel) != Returned(None)
    decreases fuel
  {
    if index < |p.worklist| && fuel > 0 {
      match ChildGroups(store, p.worklist[index].id, relationTypeSet, scenarioName)
      case None =>
      case Some(groups) =>
        RunNeverNull(store, scenarioName, relationTypeSet, attributes,
                     VisitAll(store, attributes, p.worklist[index], p, Flatten(groups)), index + 1, fuel - 1);
    }
  }

  /** FilterGraph returns null exactly when the start name does not resolve
      (both names blank, or a blank name and no root for the scenario) or the
      start vertex is not found or does not pass the filters. */
  lemma FilterGraphNull(store: KGStore, nlu: NLUStore, startVertexName: string, scenarioName: string,
                        relationTypeSet: Option<seq<string>>, attributes: Option<seq<AttributePair>>, fuel: nat)
    ensures FilterGraphSpec(store, nlu, startVertexName, scenarioName, relationTypeSet, attributes, fuel) == Returned(None) <==>
              || StartName(nlu, startVertexName, scenarioName).None?
              || SearchGraph(store, nlu, StartName(nlu, startVertexName, scenarioName).value, scenarioName, attributes).None?
  {
    match StartName(nlu, startVertexName, scenarioName)
    case None =>
    case Some(name) =>
      match SearchGraph(store, nlu, name, scenarioName, attributes)
      case None =>
      case Some(start) =>
        RunNeverNull(store, scenarioName, relationTypeSet, attributes, Progress(map[], [start]), 0, fuel);
  }

  /* ---------------- The two defects, exhibited ---------------- */

  /** Without a relation-type set, a start vertex whose child dictionary is
      null makes the loop spin on it for ever. */
  lemma NullChildMapSpins(store: KGStore, nlu: NLUStore, startVertexName: string, scenarioName: string,
                          attributes: Option<seq<AttributePair>>, fuel: nat, start: Vertex)
    requires StartName(nlu, startVertexName, scenarioName).Some?
    requires SearchGraph(store, nlu, StartName(nlu, startVertexName, scenarioName).value, scenarioName, attributes) == Some(start)
    requires (start.id, scenarioName) !in store.childIds
    requires fuel > 0
    ensures FilterGraphSpec(store, nlu, startVertexName, scenarioName, None, attributes, fuel) == Spins
  {
  }

  /** A property accessor for the example graphs: the first property of that name. */
  function PropertyIn(properties: seq<VertexProperty>, name: string): PropertyLookup {
    if |properties| == 0 then Missing
    else if properties[0].name == name then Found(properties[0].value)
    else PropertyIn(properties[1..], name)
  }

  const Loop := Vertex("loop", "Loop", "Node", [], None)

  /** A store whose one vertex, `loop`, lists itself as its child. */
  function CycleStore(loop: Vertex): KGStore {
    KGStore(map[loop.id := loop], map[loop.name := [loop]], map[], map[(loop.id, "") := [IdGroup("next", [loop.id])]], {},
            (v: Vertex, name: string) => PropertyIn(v.properties, name))
  }

  lemma CycleChildren(loop: Vertex)
    ensures ChildGroups(CycleStore(loop), loop.id, None, "") == Some([IdGroup("next", [loop.id])])
    ensures Flatten([IdGroup("next", [loop.id])]) == [Entry("next", loop.id)]
  {
    assert [IdGroup("next", [loop.id])][..0] == [];
  }

  lemma CycleVisit(loop: Vertex, w: seq<Vertex>)
    ensures VisitAll(CycleStore(loop), None, loop, Progress(map[], w), [Entry("next", loop.id)]) == Progress(map[], w + [loop])
  {
    assert [Entry("next", loop.id)][..0] == [];
  }

  /** One expansion of the looping vertex at the end of the worklist. */
  lemma CycleStep(loop: Vertex, w: seq<Vertex>, fuel: nat)
    requires |w| > 0 && w[|w| - 1] == loop && fuel > 0
    ensures Run(CycleStore(loop), "", None, None, Progress(map[], w), |w| - 1, fuel)
            == Run(CycleStore(loop), "", None, None, Progress(map[], w + [loop]), |w|, fuel - 1)
  {
    CycleChildren(loop);
    CycleVisit(loop, w);
  }

  /** Expanding the last vertex of the worklist, the looping vertex, queues
      it again, so the loop uses up every expansion it is allowed. */
  lemma {:induction false} CycleRuns(loop: Vertex, w: seq<Vertex>, fuel: nat)
    requires |w| > 0 && w[|w| - 1] == loop
    ensures Run(CycleStore(loop), "", None, None, Progress(map[], w), |w| - 1, fuel) == OutOfFuel
    decreases fuel
  {
    if fuel > 0 {
      var next := w + [loop];
      assert |next| - 1 == |w| && next[|next| - 1] == loop;
      CycleStep(loop, w, fuel);
      CycleRuns(loop, next, fuel - 1);
    }
  }

  /** On the self-looping example store, whose one vertex lists itself as
      its child, FilterGraph never returns, however many expansions it is
      allowed. */
  lemma CycleNeverReturns(fuel: nat)
    ensures FilterGraphSpec(CycleStore(Loop), NLUStore(map[]), "Loop", "", None, None, fuel) == OutOfFuel
  {
    assert !IsWhiteSpace("Loop"[0]);
    assert StartName(NLUStore(map[]), "Loop", "") == Some("Loop");
    assert CycleStore(Loop).GetVertexByName("Loop") == Some([Loop]);
    assert Survivors(CycleStore(Loop), [Loop], "", None) == [Loop] by {
      assert [Loop][..0] == [];
    }
    CycleRuns(Loop, [Loop], fuel);
  }

  const Laptop := Vertex("laptop", "Laptop", "Product", [], Some(["shopping"]))
  const Ram := Vertex("ram", "RAM", "Spec", [VertexProperty("size", "16GB")], Some(["shopping"]))
  const Warranty := Vertex("warranty", "Warranty", "Spec", [VertexProperty("years", "2")], Some(["shopping"]))

  /** A laptop with two leaf specifications, RAM and Warranty, both under "hasSpec". */
  function ShopStore(): KGStore {
    KGStore(map["laptop" := Laptop, "ram" := Ram, "warranty" := Warranty], map["Laptop" := [Laptop]], map[],
            map[("laptop", "shopping") := [IdGroup("hasSpec", ["ram", "warranty"])]], {"ram", "warranty"},
            (v: Vertex, name: string) => PropertyIn(v.properties, name))
  }

  /** Neither "Laptop" nor "shopping" is blank. */
  lemma ShopNotBlank()
    ensures !IsBlank("Laptop") && !IsBlank("shopping")
  {
    assert !IsWhiteSpace("Laptop"[0]) && !IsWhiteSpace("shopping"[0]);
  }

  /** The laptop passes the scenario test and the empty attribute filter. */
  lemma ShopPasses()
    ensures Passes(ShopStore(), Laptop, "shopping", None)
  {
    assert Laptop.scenarios.value[0] == "shopping";
  }

  /** The laptop is the start vertex: its name resolves and it passes the
      scenario test. */
  lemma ShopFound()
    ensures StartName(NLUStore(map[]), "Laptop", "shopping") == Some("Laptop")
    ensures SearchGraph(ShopStore(), NLUStore(map[]), "Laptop", "shopping", None) == Some(Laptop)
  {
    ShopNotBlank();
    ShopPasses();
    assert ShopStore().GetVertexByName("Laptop") == Some([Laptop]);
    assert Survivors(ShopStore(), [Laptop], "shopping", None) == [Laptop] by {
      assert [Laptop][..0] == [];
    }
  }

  lemma ShopStart(fuel: nat)
    ensures FilterGraphSpec(ShopStore(), NLUStore(map[]), "Laptop", "shopping", Some(["hasSpec"]), None, fuel)
            == Run(ShopStore(), "shopping", Some(["hasSpec"]), None, Progress(map[], [Laptop]), 0, fuel)
  {
    ShopFound();
  }

  lemma ShopChildren()
    ensures ChildGroups(ShopStore(), "laptop", Some(["hasSpec"]), "shopping") == Some([IdGroup("hasSpec", ["ram", "warranty"])])
    ensures Flatten([IdGroup("hasSpec", ["ram", "warranty"])]) == [Entry("hasSpec", "ram"), Entry("hasSpec", "warranty")]
  {
    var store := ShopStore();
    var group := IdGroup("hasSpec", ["ram", "warranty"]);
    assert store.childIds[("laptop", "shopping")] == [group];
    assert store.GetChildrenIds("laptop", Some("hasSpec"), "shopping") == Some([group]);
    assert PickGroups(store, "laptop", ["hasSpec"], "shopping") == [group] by {
      assert ["hasSpec"][..0] == [];
      assert PickGroups(store, "laptop", [], "shopping") == [];
    }
    assert [group][..0] == [];
    assert Tag(group) == [Entry("hasSpec", "ram"), Entry("hasSpec", "warranty")];
  }

  lemma ShopVisit()
    ensures VisitAll(ShopStore(), None, Laptop, Progress(map[], [Laptop]), [Entry("hasSpec", "ram"), Entry("hasSpec", "warranty")])
            == Progress(map["hasSpec" := [Laptop, Warranty]], [Laptop])
  {
    var store := ShopStore();
    var es := [Entry("hasSpec", "ram"), Entry("hasSpec", "warranty")];
    var p0 := Progress(map[], [Laptop]);
    var p1 := Progress(map["hasSpec" := [Laptop]], [Laptop]);
    assert store.IsLeaf(Ram) && store.IsLeaf(Warranty);
    assert store.GetVertexById("ram") == Some(Ram) && store.GetVertexById("warranty") == Some(Warranty);
    assert VisitAll(store, None, Laptop, p0, es[..1]) == p1 by {
      assert es[..1][..0] == [];
      assert Visit(store, None, Laptop, p0, es[0]) == p1;
    }
    assert es[..1] == es[..|es| - 1];
    assert Selected(store, Warranty, None);
    assert p1.results["hasSpec"] + [Warranty] == [Laptop, Warranty];
    assert p1.results["hasSpec" := [Laptop, Warranty]] == map["hasSpec" := [Laptop, Warranty]];
    assert Visit(store, None, Laptop, p1, Entry("hasSpec", "warranty")) == Progress(map["hasSpec" := [Laptop, Warranty]], [Laptop]);
  }

  /** Both leaves qualify, yet the "hasSpec" bucket holds the laptop and the
      warranty: the bucket was created with the expanded vertex instead of RAM. */
  lemma Line253RecordsExpandedVertex(fuel: nat)
    requires fuel > 0
    ensures FilterGraphSpec(ShopStore(), NLUStore(map[]), "Laptop", "shopping", Some(["hasSpec"]), None, fuel)
            == Returned(Some(map["hasSpec" := [Laptop, Warranty]]))
  {
    ShopStart(fuel);
    ShopChildren();
    ShopVisit();
  }

  /* ---------------- The corrected traversal ---------------- */

  /** The state of the corrected loop: the result dictionary, the worklist,
      and the ids of every vertex ever queued. */
  datatype Walk = Walk(results: map<string, seq<Vertex>>, worklist: seq<Vertex>, visited: set<string>)

  /** The ids of the store's vertices. */
  function StoreIds(store: KGStore): set<string> {
    set v | v in store.vertexById.Values :: v.id
  }

  /** How many store vertices have not been queued yet. */
  function Unvisited(store: KGStore, w: Walk): nat {
    |StoreIds(store) - w.visited|
  }

  /** Files a leaf under a relation type, unless that bucket already holds it. */
  function File(results: map<string, seq<Vertex>>, relationType: string, leaf: Vertex): map<string, seq<Vertex>> {
    if relationType !in results then results[relationType := [leaf]]
    else if leaf in results[relationType] then results
    else results[relationType := results[relationType] + [leaf]]
  }

  /** One child id, corrected: a qualifying leaf is filed itself (not the
      vertex being expanded), and a non-leaf child is queued only if no
      vertex with its id was ever queued. */
  function Step(store: KGStore, attributes: Option<seq<AttributePair>>, w: Walk, e: Entry): Walk {
    match store.GetVertexById(e.id)
    case None => w
    case Some(child) =>
      if store.IsLeaf(child) then
        if Selected(store, child, attributes) then w.(results := File(w.results, e.relationType, child)) else w
      else if child.id in w.visited then w
      else w.(worklist := w.worklist + [child], visited := w.visited + {child.id})
  }

  /** All children of one vertex, in dictionary order. */
  function StepAll(store: KGStore, attributes: Option<seq<AttributePair>>, w: Walk, es: seq<Entry>): Walk {
    if |es| == 0 then w
    else Step(store, attributes, StepAll(store, attributes, w, es[..|es| - 1]), es[|es| - 1])
  }

  /** Queuing a vertex trades one unvisited store vertex for one more
      worklist entry. */
  lemma StepMeasure(store: KGStore, attributes: Option<seq<AttributePair>>, w: Walk, e: Entry)
    ensures var r := Step(store, attributes, w, e);
            Unvisited(store, r) + |r.worklist| == Unvisited(store, w) + |w.worklist|
  {
    if e.id in store.vertexById {
      var child := store.vertexById[e.id];
      if !store.IsLeaf(child) && child.id !in w.visited {
        assert child in store.vertexById.Values;
        assert StoreIds(store) - (w.visited + {child.id}) == (StoreIds(store) - w.visited) - {child.id};
      }
    }
  }

  /** A whole expansion keeps the sum of unvisited store vertices and
      worklist entries. */
  lemma {:induction false} StepAllMeasure(store: KGStore, attributes: Option<seq<AttributePair>>, w: Walk, es: seq<Entry>)
    ensures var r := StepAll(store, attributes, w, es);
            Unvisited(store, r) + |r.worklist| == Unvisited(store, w) + |w.worklist|
  {
    if |es| > 0 {
      StepAllMeasure(store, attributes, w, es[..|es| - 1]);
      StepMeasure(store, attributes, StepAll(store, attributes, w, es[..|es| - 1]), es[|es| - 1]);
    }
  }

  /** Stepping through `a + b` is stepping through `a`, then `b`. */
  lemma {:induction false} StepAllAppend(store: KGStore, attributes: Option<seq<AttributePair>>, w: Walk, a: seq<Entry>, b: seq<Entry>)
    ensures StepAll(store, attributes, w, a + b) == StepAll(store, attributes, StepAll(store, attributes, w, a), b)
    decreases |b|
  {
    if |b| == 0 {
      assert a + b == a;
    } else {
      assert (a + b)[..|a + b| - 1] == a + b[..|b| - 1];
      StepAllAppend(store, attributes, w, a, b[..|b| - 1]);
    }
  }

  /** The entries the expansion of `v` meets: its child dictionary in
      enumeration order; nothing when the dictionary is null. */
  function ChildEntries(store: KGStore, scenarioName: string, relationTypeSet: Option<seq<string>>, v: Vertex): seq<Entry> {
    match ChildGroups(store, v.id, relationTypeSet, scenarioName)
    case None => []
    case Some(groups) => Flatten(groups)
  }

  /** The corrected worklist loop from position `index`. It ends because
      every expansion uses up one position, and the worklist only grows by
      using up an unvisited store vertex. */
  function RunVisited(store: KGStore, scenarioName: string, relationTypeSet: Option<seq<string>>,
                      attributes: Option<seq<AttributePair>>, w: Walk, index: nat): Walk
    decreases Unvisited(store, w) + |w.worklist| - index
  {
    if index >= |w.worklist| then w
    else
      var es := ChildEntries(store, scenarioName, relationTypeSet, w.worklist[index]);
      StepAllMeasure(store, attributes, w, es);
      RunVisited(store, scenarioName, relationTypeSet, attributes, StepAll(store, attributes, w, es), index + 1)
  }

  /** The corrected FilterGraph: the same start resolution, then the
      corrected loop from the start vertex, whose id is visited from the outset. */
  function Traverse(store: KGStore, nlu: NLUStore, startVertexName: string, scenarioName: string,
                    relationTypeSet: Option<seq<string>>, attributes: Option<seq<AttributePair>>): Option<Walk>
  {
    match StartName(nlu, startVertexName, scenarioName)
    case None => None
    case Some(name) =>
      match SearchGraph(store, nlu, name, scenarioName, attributes)
      case None => None
      case Some(start) => Some(RunVisited(store, scenarioName, relationTypeSet, attributes, Walk(map[], [start], {start.id}), 0))
  }

  /** FilterGraph with its defects removed: a new bucket starts with the
      leaf being filed, a leaf is filed once per bucket, a null child
      dictionary skips the vertex, and a visited set of vertex ids keeps any
      vertex from being queued twice. */
  method FilterGraphVisited(store: KGStore, nlu: NLUStore, startVertexName: string, scenarioName: string,
                            relationTypeSet: Option<seq<string>>, attributes: Option<seq<AttributePair>>)
    returns (result: Option<map<string, seq<Vertex>>>)
    ensures var t := Traverse(store, nlu, startVertexName, scenarioName, relationTypeSet, attributes);
            && (result.Some? <==> t.Some?)
            && (result.Some? ==> result.value == t.value.results)
  {
    var name := StartName(nlu, startVertexName, scenarioName);
    if name.None? {
      return None;
    }
    var startVertex := SearchGraph(store, nlu, name.value, scenarioName, attributes);
    if startVertex.None? {
      return None;
    }
    var results := WalkFrom(store, scenarioName, relationTypeSet, attributes, startVertex.value);
    return Some(results);
  }

  /** The corrected worklist loop from the start vertex, whose id is visited
      from the outset. */
  method WalkFrom(store: KGStore, scenarioName: string, relationTypeSet: Option<seq<string>>,
                  attributes: Option<seq<AttributePair>>, start: Vertex)
    returns (results: map<string, seq<Vertex>>)
    ensures results == RunVisited(store, scenarioName, relationTypeSet, attributes, Walk(map[], [start], {start.id}), 0).results
  {
    results := map[];
    var tobeProcessedVertexes := [start];
    var visited := {start.id};
    var index := 0;
    ghost var target := RunVisited(store, scenarioName, relationTypeSet, attributes, Walk(results, tobeProcessedVertexes, visited), index);
    while index < |tobeProcessedVertexes|
      invariant RunVisited(store, scenarioName, relationTypeSet, attributes, Walk(results, tobeProcessedVertexes, visited), index) == target
      decreases Unvisited(store, Walk(results, tobeProcessedVertexes, visited)) + |tobeProcessedVertexes| - index
    {
      ghost var before := Walk(results, tobeProcessedVertexes, visited);
      results, tobeProcessedVertexes, visited := ExpandQueued(store, scenarioName, relationTypeSet, attributes,
                                                              results, tobeProcessedVertexes, visited, index);
      RunVisitedStep(store, scenarioName, relationTypeSet, attributes, before, index);
      index := index + 1;
    }
  }

  /** One iteration of the corrected loop: the loop from `index` is the loop
      from `index + 1` after expanding the vertex there, and the expansion
      keeps the sum of unvisited store vertices and worklist entries. */
  lemma RunVisitedStep(store: KGStore, scenarioName: string, relationTypeSet: Option<seq<string>>,
                       attributes: Option<seq<AttributePair>>, w: Walk, index: nat)
    requires index < |w.worklist|
    ensures var w1 := StepAll(store, attributes, w, ChildEntries(store, scenarioName, relationTypeSet, w.worklist[index]));
            && Unvisited(store, w1) + |w1.worklist| == Unvisited(store, w) + |w.worklist|
            && RunVisited(store, scenarioName, relationTypeSet, attributes, w, index)
               == RunVisited(store, scenarioName, relationTypeSet, attributes, w1, index + 1)
  {
    StepAllMeasure(store, attributes, w, ChildEntries(store, scenarioName, relationTypeSet, w.worklist[index]));
  }

  /** The body of the corrected loop: fetch the child dictionary of the
      vertex at `index`, skip the vertex when it is null, and otherwise
      expand it. */
  method ExpandQueued(store: KGStore, scenarioName: string, relationTypeSet: Option<seq<string>>, attributes: Option<seq<AttributePair>>,
                      results0: map<string, seq<Vertex>>, worklist0: seq<Vertex>, visited0: set<string>, index: nat)
    returns (results: map<string, seq<Vertex>>, tobeProcessedVertexes: seq<Vertex>, visited: set<string>)
    requires index < |worklist0|
    ensures Walk(results, tobeProcessedVertexes, visited)
            == StepAll(store, attributes, Walk(results0, worklist0, visited0), ChildEntries(store, scenarioName, relationTypeSet, worklist0[index]))
  {
    var vertex := worklist0[index];
    var childrenIds := CollectChildIds(store, vertex.id, relationTypeSet, scenarioName);
    if childrenIds.Some? {
      results, tobeProcessedVertexes, visited := ExpandVisited(store, attributes, results0, worklist0, visited0, childrenIds.value);
    } else {
      results, tobeProcessedVertexes, visited := results0, worklist0, visited0;
    }
  }

  /** The nested foreach of the corrected loop over a child dictionary. */
  method ExpandVisited(store: KGStore, attributes: Option<seq<AttributePair>>,
                       results0: map<string, seq<Vertex>>, worklist0: seq<Vertex>, visited0: set<string>, groups: seq<IdGroup>)
    returns (results: map<string, seq<Vertex>>, tobeProcessedVertexes: seq<Vertex>, visited: set<string>)
    ensures Walk(results, tobeProcessedVertexes, visited) == StepAll(store, attributes, Walk(results0, worklist0, visited0), Flatten(groups))
  {
    results, tobeProcessedVertexes, visited := results0, worklist0, visited0;
    ghost var w0 := Walk(results0, worklist0, visited0);
    var g := 0;
    while g < |groups|
      invariant 0 <= g <= |groups|
      invariant Walk(results, tobeProcessedVertexes, visited) == StepAll(store, attributes, w0, Flatten(groups[..g]))
    {
      results, tobeProcessedVertexes, visited := VisitChildrenVisited(store, attributes, results, tobeProcessedVertexes, visited, groups[g]);
      assert groups[..g + 1][..g] == groups[..g];
      assert Flatten(groups[..g + 1]) == Flatten(groups[..g]) + Tag(groups[g]);
      StepAllAppend(store, attributes, w0, Flatten(groups[..g]), Tag(groups[g]));
      g := g + 1;
    }
    assert groups[..|groups|] == groups;
  }

  /** The corrected inner foreach: the ids listed under one relation type. */
  method VisitChildrenVisited(store: KGStore, attributes: Option<seq<AttributePair>>,
                              results0: map<string, seq<Vertex>>, worklist0: seq<Vertex>, visited0: set<string>, group: IdGroup)
    returns (results: map<string, seq<Vertex>>, tobeProcessedVertexes: seq<Vertex>, visited: set<string>)
    ensures Walk(results, tobeProcessedVertexes, visited) == StepAll(store, attributes, Walk(results0, worklist0, visited0), Tag(group))
  {
    results, tobeProcessedVertexes, visited := results0, worklist0, visited0;
    ghost var w0 := Walk(results0, worklist0, visited0);
    var relationType := group.relationType;
    var ids := group.ids;
    var j := 0;
    while j < |ids|
      invariant 0 <= j <= |ids|
      invariant Walk(results, tobeProcessedVertexes, visited) == StepAll(store, attributes, w0, Tag(IdGroup(relationType, ids[..j])))
    {
      StepNextId(store, attributes, w0, relationType, ids, j);
      ghost var before := Walk(results, tobeProcessedVertexes, visited);
      var child := store.GetVertexById(ids[j]);
      if child.Some? {
        if store.IsLeaf(child.value) {
          var selected := IsSelected(store, child.value, attributes);
          if selected {
            if relationType !in results {
              results := results[relationType := [child.value]];
            } else if child.value !in results[relationType] {
              results := results[relationType := results[relationType] + [child.value]];
            }
          }
        } else if child.value.id !in visited {
          visited := visited + {child.value.id};
          tobeProcessedVertexes := tobeProcessedVertexes + [child.value];
        }
      }
      assert Walk(results, tobeProcessedVertexes, visited) == Step(store, attributes, before, Entry(relationType, ids[j]));
      j := j + 1;
    }
    assert ids[..|ids|] == ids;
  }

  /** Stepping through the first `j + 1` ids is stepping through the first
      `j`, then id `j`. */
  lemma StepNextId(store: KGStore, attributes: Option<seq<AttributePair>>, w: Walk, relationType: string, ids: seq<string>, j: nat)
    requires j < |ids|
    ensures StepAll(store, attributes, w, Tag(IdGroup(relationType, ids[..j + 1])))
            == Step(store, attributes, StepAll(store, attributes, w, Tag(IdGroup(relationType, ids[..j]))), Entry(relationType, ids[j]))
  {
    assert Tag(IdGroup(relationType, ids[..j + 1])) == Tag(IdGroup(relationType, ids[..j])) + [Entry(relationType, ids[j])];
    assert Tag(IdGroup(relationType, ids[..j + 1]))[..j] == Tag(IdGroup(relationType, ids[..j]));
  }

  /* ---------------- What the corrected traversal returns ---------------- */

  /** A result dictionary of the corrected traversal: keys are requested
      relation types and every bucket is a nonempty list of recorded leaves. */
  predicate Filed(store: KGStore, attributes: Option<seq<AttributePair>>, relationTypeSet: Option<seq<string>>,
                  results: map<string, seq<Vertex>>)
  {
    forall k :: k in results ==>
      && (relationTypeSet.Some? ==> k in relationTypeSet.value)
      && |results[k]| > 0
      && forall j :: 0 <= j < |results[k]| ==> Recorded(store, attributes, results[k][j])
  }

  /** Filed, and no bucket holds a leaf twice. */
  predicate Sound(store: KGStore, attributes: Option<seq<AttributePair>>, relationTypeSet: Option<seq<string>>,
                  results: map<string, seq<Vertex>>)
  {
    Filed(store, attributes, relationTypeSet, results) && forall k :: k in results ==> Distinct(results[k])
  }

  /** The ids of a list of vertices. */
  function IdsOf(vs: seq<Vertex>): set<string> {
    set v | v in vs :: v.id
  }

  /** No id is queued twice, and the visited set is exactly the queued ids. */
  predicate Tracked(w: Walk) {
    && (forall i, j :: 0 <= i < j < |w.worklist| ==> w.worklist[i].id != w.worklist[j].id)
    && w.visited == IdsOf(w.worklist)
  }

  /** What meeting the entry `e` leaves behind: a qualifying leaf is filed
      under the entry's relation type, and a non-leaf child has its id queued. */
  predicate Handled(store: KGStore, attributes: Option<seq<AttributePair>>, w: Walk, e: Entry) {
    e.id in store.vertexById ==>
      var child := store.vertexById[e.id];
      if store.IsLeaf(child) then
        Selected(store, child, attributes) ==> e.relationType in w.results && child in w.results[e.relationType]
      else child.id in w.visited
  }

  /** `w1` extends `w0`: the worklist only grows at its end, queued ids stay
      queued, and filed leaves stay filed. */
  ghost predicate Grows(w0: Walk, w1: Walk) {
    && w0.worklist <= w1.worklist
    && w0.visited <= w1.visited
    && forall k :: k in w0.results ==> k in w1.results && forall v :: v in w0.results[k] ==> v in w1.results[k]
  }

  /** Every entry met while expanding the first `n` worklist vertices is handled. */
  ghost predicate Closed(store: KGStore, scenarioName: string, relationTypeSet: Option<seq<string>>,
                         attributes: Option<seq<AttributePair>>, w: Walk, n: nat)
  {
    forall i, e :: 0 <= i < n && i < |w.worklist| && e in ChildEntries(store, scenarioName, relationTypeSet, w.worklist[i]) ==>
      Handled(store, attributes, w, e)
  }

  /** The entries met while expanding a vertex carry requested relation types. */
  lemma ChildEntriesRequested(store: KGStore, scenarioName: string, relationTypeSet: Option<seq<string>>, v: Vertex)
    ensures relationTypeSet.Some? ==>
              forall e :: e in ChildEntries(store, scenarioName, relationTypeSet, v) ==> e.relationType in relationTypeSet.value
  {
    if relationTypeSet.Some? {
      var groups := ChildGroups(store, v.id, relationTypeSet, scenarioName).value;
      PickGroupsFromStore(store, v.id, relationTypeSet.value, scenarioName);
      FlattenEntries(groups);
      forall e | e in Flatten(groups)
        ensures e.relationType in relationTypeSet.value
      {
        var g :| g in groups && g.relationType == e.relationType;
      }
    }
  }

  /** One step handles its entry and only extends the state. */
  lemma StepGrows(store: KGStore, attributes: Option<seq<AttributePair>>, w: Walk, e: Entry)
    ensures Grows(w, Step(store, attributes, w, e))
    ensures Handled(store, attributes, Step(store, attributes, w, e), e)
  {
    var r := Step(store, attributes, w, e);
    if e.id in store.vertexById {
      var child := store.vertexById[e.id];
      if store.IsLeaf(child) && Selected(store, child, attributes) {
        assert r.results == File(w.results, e.relationType, child);
        if e.relationType in w.results && child !in w.results[e.relationType] {
          assert r.results[e.relationType] == w.results[e.relationType] + [child];
        }
      }
    }
  }

  /** One step keeps the visited set exact and the buckets sound. */
  lemma StepKeeps(store: KGStore, attributes: Option<seq<AttributePair>>, relationTypeSet: Option<seq<string>>, w: Walk, e: Entry)
    requires Tracked(w) && Sound(store, attributes, relationTypeSet, w.results)
    requires relationTypeSet.Some? ==> e.relationType in relationTypeSet.value
    ensures Tracked(Step(store, attributes, w, e))
    ensures Sound(store, attributes, relationTypeSet, Step(store, attributes, w, e).results)
  {
    var r := Step(store, attributes, w, e);
    if e.id in store.vertexById {
      var child := store.vertexById[e.id];
      assert child in store.vertexById.Values;
      if !store.IsLeaf(child) && child.id !in w.visited {
        assert IdsOf(r.worklist) == IdsOf(w.worklist) + {child.id};
      } else if store.IsLeaf(child) && Selected(store, child, attributes) {
        assert Recorded(store, attributes, child);
        var k := e.relationType;
        if k in w.results && child !in w.results[k] {
          assert r.results[k] == w.results[k] + [child];
        }
      }
    }
  }

  /** Extending the state keeps a handled entry handled. */
  lemma HandledGrows(store: KGStore, attributes: Option<seq<AttributePair>>, w0: Walk, w1: Walk, e: Entry)
    requires Grows(w0, w1) && Handled(store, attributes, w0, e)
    ensures Handled(store, attributes, w1, e)
  {
  }

  /** Extending is transitive. */
  lemma GrowsTrans(w0: Walk, w1: Walk, w2: Walk)
    requires Grows(w0, w1) && Grows(w1, w2)
    ensures Grows(w0, w2)
  {
  }

  /** A whole expansion handles every entry it meets, only extends the
      state, and keeps the visited set exact and the buckets sound. */
  lemma {:induction false} StepAllFacts(store: KGStore, attributes: Option<seq<AttributePair>>, relationTypeSet: Option<seq<string>>,
                                        w: Walk, es: seq<Entry>)
    requires Tracked(w) && Sound(store, attributes, relationTypeSet, w.results)
    requires relationTypeSet.Some? ==> forall e :: e in es ==> e.relationType in relationTypeSet.value
    ensures var r := StepAll(store, attributes, w, es);
            && Tracked(r) && Sound(store, attributes, relationTypeSet, r.results) && Grows(w, r)
            && forall e :: e in es ==> Handled(store, attributes, r, e)
  {
    if |es| > 0 {
      var init, e := es[..|es| - 1], es[|es| - 1];
      assert forall x :: x in init ==> x in es;
      StepAllFacts(store, attributes, relationTypeSet, w, init);
      var q := StepAll(store, attributes, w, init);
      var r := Step(store, attributes, q, e);
      StepGrows(store, attributes, q, e);
      StepKeeps(store, attributes, relationTypeSet, q, e);
      GrowsTrans(w, q, r);
      forall x | x in es
        ensures Handled(store, attributes, r, x)
      {
        if x != e {
          assert x in init;
          HandledGrows(store, attributes, q, r, x);
        }
      }
    }
  }

  /** Expanding the vertex at `index` extends the closed prefix by one. */
  lemma ClosedStep(store: KGStore, scenarioName: string, relationTypeSet: Option<seq<string>>,
                   attributes: Option<seq<AttributePair>>, w: Walk, index: nat, w1: Walk)
    requires index < |w.worklist|
    requires Closed(store, scenarioName, relationTypeSet, attributes, w, index)
    requires Grows(w, w1)
    requires forall e :: e in ChildEntries(store, scenarioName, relationTypeSet, w.worklist[index]) ==> Handled(store, attributes, w1, e)
    ensures Closed(store, scenarioName, relationTypeSet, attributes, w1, index + 1)
  {
    forall i, e | 0 <= i < index + 1 && i < |w1.worklist| && e in ChildEntries(store, scenarioName, relationTypeSet, w1.worklist[i])
      ensures Handled(store, attributes, w1, e)
    {
      assert w1.worklist[i] == w.worklist[i];
      if i < index {
        HandledGrows(store, attributes, w, w1, e);
      }
    }
  }

  /** The corrected loop, run from a state whose first `index` vertices are
      expanded, ends with every queued vertex expanded. */
  lemma {:induction false} RunVisitedFacts(store: KGStore, scenarioName: string, relationTypeSet: Option<seq<string>>,
                                           attributes: Option<seq<AttributePair>>, w: Walk, index: nat)
    requires index <= |w.worklist|
    requires Tracked(w) && Sound(store, attributes, relationTypeSet, w.results)
    requires Closed(store, scenarioName, relationTypeSet, attributes, w, index)
    ensures var f := RunVisited(store, scenarioName, relationTypeSet, attributes, w, index);
            && Tracked(f) && Sound(store, attributes, relationTypeSet, f.results) && Grows(w, f)
            && Closed(store, scenarioName, relationTypeSet, attributes, f, |f.worklist|)
    decreases Unvisited(store, w) + |w.worklist| - index
  {
    if index < |w.worklist| {
      var es := ChildEntries(store, scenarioName, relationTypeSet, w.worklist[index]);
      var w1 := StepAll(store, attributes, w, es);
      ExpandFacts(store, scenarioName, relationTypeSet, attributes, w, index);
      RunVisitedStep(store, scenarioName, relationTypeSet, attributes, w, index);
      var f := RunVisited(store, scenarioName, relationTypeSet, attributes, w1, index + 1);
      RunVisitedFacts(store, scenarioName, relationTypeSet, attributes, w1, index + 1);
      GrowsTrans(w, w1, f);
    }
  }

  /** Expanding the vertex at `index` keeps the loop's invariants and
      extends the closed prefix by one. */
  lemma ExpandFacts(store: KGStore, scenarioName: string, relationTypeSet: Option<seq<string>>,
                    attributes: Option<seq<AttributePair>>, w: Walk, index: nat)
    requires index < |w.worklist|
    requires Tracked(w) && Sound(store, attributes, relationTypeSet, w.results)
    requires Closed(store, scenarioName, relationTypeSet, attributes, w, index)
    ensures var w1 := StepAll(store, attributes, w, ChildEntries(store, scenarioName, relationTypeSet, w.worklist[index]));
            && index + 1 <= |w1.worklist|
            && Tracked(w1) && Sound(store, attributes, relationTypeSet, w1.results) && Grows(w, w1)
            && Closed(store, scenarioName, relationTypeSet, attributes, w1, index + 1)
  {
    var es := ChildEntries(store, scenarioName, relationTypeSet, w.worklist[index]);
    ChildEntriesRequested(store, scenarioName, relationTypeSet, w.worklist[index]);
    StepAllFacts(store, attributes, relationTypeSet, w, es);
    ClosedStep(store, scenarioName, relationTypeSet, attributes, w, index, StepAll(store, attributes, w, es));
  }

  /** A walk is complete when every qualifying leaf met while expanding a
      queued vertex is filed under the relation type that lists it, and
      every non-leaf child met is itself queued. */
  ghost predicate Complete(store: KGStore, scenarioName: string, relationTypeSet: Option<seq<string>>,
                           attributes: Option<seq<AttributePair>>, w: Walk)
  {
    forall i, e :: 0 <= i < |w.worklist| && e in ChildEntries(store, scenarioName, relationTypeSet, w.worklist[i])
                         && e.id in store.vertexById ==>
            && (store.IsLeaf(store.vertexById[e.id]) && Selected(store, store.vertexById[e.id], attributes) ==>
                  e.relationType in w.results && store.vertexById[e.id] in w.results[e.relationType])
            && (!store.IsLeaf(store.vertexById[e.id]) ==>
                  exists j :: 0 <= j < |w.worklist| && w.worklist[j].id == store.vertexById[e.id].id)
  }

  /** A finished walk is complete. */
  lemma FinishedComplete(store: KGStore, scenarioName: string, relationTypeSet: Option<seq<string>>,
                         attributes: Option<seq<AttributePair>>, w: Walk)
    requires Tracked(w)
    requires Closed(store, scenarioName, relationTypeSet, attributes, w, |w.worklist|)
    ensures Complete(store, scenarioName, relationTypeSet, attributes, w)
  {
    forall i, e | 0 <= i < |w.worklist| && e in ChildEntries(store, scenarioName, relationTypeSet, w.worklist[i])
                  && e.id in store.vertexById
      ensures store.IsLeaf(store.vertexById[e.id]) && Selected(store, store.vertexById[e.id], attributes) ==>
                e.relationType in w.results && store.vertexById[e.id] in w.results[e.relationType]
      ensures !store.IsLeaf(store.vertexById[e.id]) ==>
                exists j :: 0 <= j < |w.worklist| && w.worklist[j].id == store.vertexById[e.id].id
    {
      assert Handled(store, attributes, w, e);
      if !store.IsLeaf(store.vertexById[e.id]) {
        var v :| v in w.worklist && v.id == store.vertexById[e.id].id;
      }
    }
  }

  /** The entry `e`, met while expanding `u`, names the store vertex `v`. */
  ghost predicate Names(store: KGStore, scenarioName: string, relationTypeSet: Option<seq<string>>, u: Vertex, e: Entry, v: Vertex) {
    e in ChildEntries(store, scenarioName, relationTypeSet, u) && e.id in store.vertexById && store.vertexById[e.id] == v
  }

  /** The leaf `v`, filed under `k`, is named under `k` by one of the first
      `n` worklist vertices. */
  ghost predicate FiledFrom(store: KGStore, scenarioName: string, relationTypeSet: Option<seq<string>>,
                            w: Walk, n: nat, k: string, v: Vertex) {
    exists i: int, e: Entry :: 0 <= i < n && i < |w.worklist| && e.relationType == k
                   && Names(store, scenarioName, relationTypeSet, w.worklist[i], e, v)
  }

  /** The worklist vertex at `j` is a non-leaf named by a vertex before it,
      among the first `n`. */
  ghost predicate QueuedFrom(store: KGStore, scenarioName: string, relationTypeSet: Option<seq<string>>,
                             w: Walk, n: nat, j: nat)
    requires j < |w.worklist|
  {
    && !store.IsLeaf(w.worklist[j])
    && exists i: int, e: Entry :: 0 <= i < j && i < n && Names(store, scenarioName, relationTypeSet, w.worklist[i], e, w.worklist[j])
  }

  /** Nothing in the walk comes from nowhere: every filed leaf is named,
      under its bucket's relation type, by one of the first `n` expanded
      vertices, and every queued vertex after the start is a non-leaf named
      by a vertex expanded before it, so it is reachable from the start. */
  ghost predicate Sourced(store: KGStore, scenarioName: string, relationTypeSet: Option<seq<string>>, w: Walk, n: nat) {
    && (forall k, v :: k in w.results && v in w.results[k] ==> FiledFrom(store, scenarioName, relationTypeSet, w, n, k, v))
    && (forall j: nat :: 0 < j < |w.worklist| ==> QueuedFrom(store, scenarioName, relationTypeSet, w, n, j))
  }

  /** Some entry of `es` names the store vertex `v` under relation type `k`. */
  ghost predicate LeafIn(store: KGStore, es: seq<Entry>, k: string, v: Vertex) {
    exists e :: e in es && e.relationType == k && e.id in store.vertexById && store.vertexById[e.id] == v
  }

  /** `v` is a non-leaf that some entry of `es` names. */
  ghost predicate NonLeafIn(store: KGStore, es: seq<Entry>, v: Vertex) {
    && !store.IsLeaf(v)
    && exists e :: e in es && e.id in store.vertexById && store.vertexById[e.id] == v
  }

  /** What `r` holds beyond `w` comes from the entries `es`: a newly filed
      leaf is named by an entry carrying its bucket's relation type, and a
      newly queued vertex is a non-leaf named by an entry. */
  ghost predicate AddsFrom(store: KGStore, w: Walk, r: Walk, es: seq<Entry>) {
    && (forall k, v :: k in r.results && v in r.results[k] ==>
          (k in w.results && v in w.results[k]) || LeafIn(store, es, k, v))
    && (forall j :: |w.worklist| <= j < |r.worklist| ==> NonLeafIn(store, es, r.worklist[j]))
  }

  /** One step adds only what its entry names. */
  lemma StepAdds(store: KGStore, attributes: Option<seq<AttributePair>>, w: Walk, e: Entry)
    ensures AddsFrom(store, w, Step(store, attributes, w, e), [e])
  {
    var r := Step(store, attributes, w, e);
    if e.id in store.vertexById {
      var child := store.vertexById[e.id];
      assert e in [e];
      if store.IsLeaf(child) && Selected(store, child, attributes) {
        assert r.results == File(w.results, e.relationType, child);
        forall k, v | k in r.results && v in r.results[k]
          ensures (k in w.results && v in w.results[k]) || LeafIn(store, [e], k, v)
        {
          if k == e.relationType && k in w.results && child !in w.results[k] {
            assert r.results[k] == w.results[k] + [child];
          }
        }
      } else if !store.IsLeaf(child) && child.id !in w.visited {
        assert r.worklist == w.worklist + [child];
        assert NonLeafIn(store, [e], child);
      }
    }
  }

  /** Entries of a prefix are entries of the whole. */
  lemma InPrefix(store: KGStore, init: seq<Entry>, es: seq<Entry>, k: string, v: Vertex)
    requires init <= es
    ensures LeafIn(store, init, k, v) ==> LeafIn(store, es, k, v)
    ensures NonLeafIn(store, init, v) ==> NonLeafIn(store, es, v)
  {
    if LeafIn(store, init, k, v) {
      var x :| x in init && x.relationType == k && x.id in store.vertexById && store.vertexById[x.id] == v;
      assert x in es;
    }
    if NonLeafIn(store, init, v) {
      var x :| x in init && x.id in store.vertexById && store.vertexById[x.id] == v;
      assert x in es;
    }
  }

  /** The entry ending a list is an entry of it. */
  lemma InLast(store: KGStore, e: Entry, es: seq<Entry>, k: string, v: Vertex)
    requires |es| > 0 && es[|es| - 1] == e
    ensures LeafIn(store, [e], k, v) ==> LeafIn(store, es, k, v)
    ensures NonLeafIn(store, [e], v) ==> NonLeafIn(store, es, v)
  {
    assert e in es;
  }

  /** A whole expansion only extends the state, and adds only what its
      entries name. */
  lemma {:induction false} StepAllAdds(store: KGStore, attributes: Option<seq<AttributePair>>, w: Walk, es: seq<Entry>)
    ensures Grows(w, StepAll(store, attributes, w, es))
    ensures AddsFrom(store, w, StepAll(store, attributes, w, es), es)
  {
    if |es| > 0 {
      var init, e := es[..|es| - 1], es[|es| - 1];
      StepAllAdds(store, attributes, w, init);
      var q := StepAll(store, attributes, w, init);
      var r := Step(store, attributes, q, e);
      StepGrows(store, attributes, q, e);
      StepAdds(store, attributes, q, e);
      GrowsTrans(w, q, r);
      forall k, v | k in r.results && v in r.results[k]
        ensures (k in w.results && v in w.results[k]) || LeafIn(store, es, k, v)
      {
        InPrefix(store, init, es, k, v);
        InLast(store, e, es, k, v);
      }
      forall j | |w.worklist| <= j < |r.worklist|
        ensures NonLeafIn(store, es, r.worklist[j])
      {
        InPrefix(store, init, es, "", r.worklist[j]);
        InLast(store, e, es, "", r.worklist[j]);
        if j < |q.worklist| {
          assert r.worklist[j] == q.worklist[j];
          assert NonLeafIn(store, init, q.worklist[j]);
        } else {
          assert NonLeafIn(store, [e], r.worklist[j]);
        }
      }
    }
  }

  /** Expanding the vertex at `index` keeps the walk sourced, now by its
      first `index + 1` vertices. */
  lemma SourcedStep(store: KGStore, scenarioName: string, relationTypeSet: Option<seq<string>>,
                    attributes: Option<seq<AttributePair>>, w: Walk, index: nat)
    requires index < |w.worklist|
    requires Sourced(store, scenarioName, relationTypeSet, w, index)
    ensures Sourced(store, scenarioName, relationTypeSet,
                    StepAll(store, attributes, w, ChildEntries(store, scenarioName, relationTypeSet, w.worklist[index])), index + 1)
  {
    var u := w.worklist[index];
    var es := ChildEntries(store, scenarioName, relationTypeSet, u);
    var w1 := StepAll(store, attributes, w, es);
    var n1 := index + 1;
    StepAllAdds(store, attributes, w, es);
    assert w1.worklist[index] == u by {
      assert w1.worklist[..|w.worklist|] == w.worklist;
    }
    forall k, v | k in w1.results && v in w1.results[k]
      ensures FiledFrom(store, scenarioName, relationTypeSet, w1, n1, k, v)
    {
      if k in w.results && v in w.results[k] {
        assert FiledFrom(store, scenarioName, relationTypeSet, w, index, k, v);
        var i: int, e: Entry :| 0 <= i < index && i < |w.worklist| && e.relationType == k
                    && Names(store, scenarioName, relationTypeSet, w.worklist[i], e, v);
        assert w1.worklist[i] == w.worklist[i] by {
          assert w1.worklist[..|w.worklist|] == w.worklist;
        }
      } else {
        assert LeafIn(store, es, k, v);
        var e :| e in es && e.relationType == k && e.id in store.vertexById && store.vertexById[e.id] == v;
        assert Names(store, scenarioName, relationTypeSet, w1.worklist[index], e, v);
      }
    }
    forall j: nat | 0 < j < |w1.worklist|
      ensures QueuedFrom(store, scenarioName, relationTypeSet, w1, n1, j)
    {
      if j < |w.worklist| {
        assert QueuedFrom(store, scenarioName, relationTypeSet, w, index, j);
        var i: int, e: Entry :| 0 <= i < j && i < index && Names(store, scenarioName, relationTypeSet, w.worklist[i], e, w.worklist[j]);
        assert w1.worklist[i] == w.worklist[i] && w1.worklist[j] == w.worklist[j] by {
          assert w1.worklist[..|w.worklist|] == w.worklist;
        }
      } else {
        assert NonLeafIn(store, es, w1.worklist[j]);
        var e :| e in es && e.id in store.vertexById && store.vertexById[e.id] == w1.worklist[j];
        assert Names(store, scenarioName, relationTypeSet, w1.worklist[index], e, w1.worklist[j]);
      }
    }
  }

  /** The corrected loop, run from a walk sourced by its first `index`
      vertices, ends sourced by all of its vertices. */
  lemma {:induction false} RunVisitedSourced(store: KGStore, scenarioName: string, relationTypeSet: Option<seq<string>>,
                                             attributes: Option<seq<AttributePair>>, w: Walk, index: nat)
    requires index <= |w.worklist|
    requires Sourced(store, scenarioName, relationTypeSet, w, index)
    ensures var f := RunVisited(store, scenarioName, relationTypeSet, attributes, w, index);
            Sourced(store, scenarioName, relationTypeSet, f, |f.worklist|)
    decreases Unvisited(store, w) + |w.worklist| - index
  {
    if index < |w.worklist| {
      var es := ChildEntries(store, scenarioName, relationTypeSet, w.worklist[index]);
      var w1 := StepAll(store, attributes, w, es);
      SourcedStep(store, scenarioName, relationTypeSet, attributes, w, index);
      StepAllAdds(store, attributes, w, es);
      RunVisitedStep(store, scenarioName, relationTypeSet, attributes, w, index);
      RunVisitedSourced(store, scenarioName, relationTypeSet, attributes, w1, index + 1);
    }
  }

  /** The corrected loop run from a start vertex: the worklist starts with
      it and holds no id twice, the buckets are sound, and the walk is
      complete. */
  lemma WalkFromStart(store: KGStore, scenarioName: string, relationTypeSet: Option<seq<string>>,
                      attributes: Option<seq<AttributePair>>, start: Vertex)
    ensures var w := RunVisited(store, scenarioName, relationTypeSet, attributes, Walk(map[], [start], {start.id}), 0);
            && |w.worklist| > 0 && w.worklist[0] == start
            && Tracked(w)
            && Sound(store, attributes, relationTypeSet, w.results)
            && Closed(store, scenarioName, relationTypeSet, attributes, w, |w.worklist|)
  {
    var w0 := Walk(map[], [start], {start.id});
    assert IdsOf([start]) == {start.id};
    RunVisitedFacts(store, scenarioName, relationTypeSet, attributes, w0, 0);
    var w := RunVisited(store, scenarioName, relationTypeSet, attributes, w0, 0);
    assert w.worklist[0] == start by {
      assert [start] <= w.worklist;
    }
  }

  /** What the corrected traversal returns. It returns a dictionary exactly
      when the start resolves. The worklist starts with the start vertex and
      holds no id twice, so no vertex is expanded twice. Every bucket has a
      requested key and holds distinct leaves of the store that pass the
      attribute filter, each named under that bucket's relation type by an
      expanded vertex; every expanded vertex after the start is a non-leaf
      named by one expanded before it. Conversely, every such leaf listed
      under a relation type by an expanded vertex is filed under that type,
      and every non-leaf child of an expanded vertex is itself expanded. */
  lemma TraverseMeaning(store: KGStore, nlu: NLUStore, startVertexName: string, scenarioName: string,
                        relationTypeSet: Option<seq<string>>, attributes: Option<seq<AttributePair>>)
    ensures Traverse(store, nlu, startVertexName, scenarioName, relationTypeSet, attributes).Some? <==>
              && StartName(nlu, startVertexName, scenarioName).Some?
              && SearchGraph(store, nlu, StartName(nlu, startVertexName, scenarioName).value, scenarioName, attributes).Some?
    ensures var t := Traverse(store, nlu, startVertexName, scenarioName, relationTypeSet, attributes);
            t.Some? ==>
              && |t.value.worklist| > 0
              && t.value.worklist[0] == SearchGraph(store, nlu, StartName(nlu, startVertexName, scenarioName).value, scenarioName, attributes).value
    ensures var t := Traverse(store, nlu, startVertexName, scenarioName, relationTypeSet, attributes);
            t.Some? ==> forall i, j :: 0 <= i < j < |t.value.worklist| ==> t.value.worklist[i].id != t.value.worklist[j].id
    ensures var t := Traverse(store, nlu, startVertexName, scenarioName, relationTypeSet, attributes);
            t.Some? ==>
              && Filed(store, attributes, relationTypeSet, t.value.results)
              && forall k :: k in t.value.results ==> Distinct(t.value.results[k])
    ensures var t := Traverse(store, nlu, startVertexName, scenarioName, relationTypeSet, attributes);
            t.Some? ==> Complete(store, scenarioName, relationTypeSet, attributes, t.value)
    ensures var t := Traverse(store, nlu, startVertexName, scenarioName, relationTypeSet, attributes);
            t.Some? ==> Sourced(store, scenarioName, relationTypeSet, t.value, |t.value.worklist|)
  {
    match StartName(nlu, startVertexName, scenarioName)
    case None =>
    case Some(name) =>
      match SearchGraph(store, nlu, name, scenarioName, attributes)
      case None =>
      case Some(start) =>
        WalkFromStart(store, scenarioName, relationTypeSet, attributes, start);
        var w := RunVisited(store, scenarioName, relationTypeSet, attributes, Walk(map[], [start], {start.id}), 0);
        FinishedComplete(store, scenarioName, relationTypeSet, attributes, w);
        RunVisitedSourced(store, scenarioName, relationTypeSet, attributes, Walk(map[], [start], {start.id}), 0);
  }

  /** The laptop example, corrected: both leaves are filed, RAM first. */
  lemma ShopTraverse()
    ensures Traverse(ShopStore(), NLUStore(map[]), "Laptop", "shopping", Some(["hasSpec"]), None)
            == Some(Walk(map["hasSpec" := [Ram, Warranty]], [Laptop], {"laptop"}))
  {
    var store := ShopStore();
    ShopFound();
    ShopChildren();
    var es := [Entry("hasSpec", "ram"), Entry("hasSpec", "warranty")];
    var w0 := Walk(map[], [Laptop], {"laptop"});
    var w1 := Walk(map["hasSpec" := [Ram]], [Laptop], {"laptop"});
    var w2 := Walk(map["hasSpec" := [Ram, Warranty]], [Laptop], {"laptop"});
    assert ChildEntries(store, "shopping", Some(["hasSpec"]), Laptop) == es;
    assert store.IsLeaf(Ram) && store.IsLeaf(Warranty);
    assert store.GetVertexById("ram") == Some(Ram) && store.GetVertexById("warranty") == Some(Warranty);
    assert StepAll(store, None, w0, es[..1]) == w1 by {
      assert es[..1][..0] == [];
      assert Step(store, None, w0, es[0]) == w1;
    }
    assert es[..1] == es[..|es| - 1];
    assert Ram.id != Warranty.id;
    assert w1.results["hasSpec"] == [Ram] && Warranty !in [Ram];
    assert [Ram] + [Warranty] == [Ram, Warranty];
    assert File(w1.results, "hasSpec", Warranty) == map["hasSpec" := [Ram]]["hasSpec" := [Ram, Warranty]];
    assert map["hasSpec" := [Ram]]["hasSpec" := [Ram, Warranty]] == map["hasSpec" := [Ram, Warranty]];
    assert StepAll(store, None, w0, es) == w2;
  }
}
