/**
 * The scenario-aware query engine of the knowledge-graph service
 * (class DataManager): label search, rooted search, the scenario and
 * attribute filter, and one-level child enumeration. The breadth-first
 * extraction FilterGraph is in module FilterGraphTraversal.
 *
 * The graph store and the NLU store are passed in as values; DataManager
 * only reads them. A null string argument is modelled as "" (every branch
 * of the class tests strings with IsNullOrWhiteSpace), a nullable list as
 * an Option, a HashSet of relation types as a sequence of distinct names
 * in its enumeration order. Dictionaries the class builds are maps.
 */
module DataManager {
  import opened Wrappers
  import opened Sequences
  import opened KnowledgeGraph

  /* ---------------- The attribute filter (IsSelected) ---------------- */

  /** One attribute pair rules a vertex out: the vertex has a non-null value
      for the attribute, neither that value nor the requested one is the
      wildcard, and the two differ. A missing property, or an accessor that
      throws, never rules a vertex out. */
  predicate Rejects(store: KGStore, v: Vertex, a: AttributePair) {
    match store.GetPropertyValue(v, a.attributeName)
    case Found(value) => value != Wildcard && a.attributeValue != Some(Wildcard) && a.attributeValue != Some(value)
    case Missing => false
    case Raised => false
  }

  /** A vertex passes the attribute filter when no pair rules it out; a null
      or empty list of pairs passes everything. */
  predicate Selected(store: KGStore, v: Vertex, attributes: Option<seq<AttributePair>>) {
    attributes.None? || forall i :: 0 <= i < |attributes.value| ==> !Rejects(store, v, attributes.value[i])
  }

  /** The pair-by-pair check with its early exit and the caught exception. */
  method IsSelected(store: KGStore, vertex: Vertex, attributes: Option<seq<AttributePair>>) returns (isSelected: bool)
    ensures isSelected == Selected(store, vertex, attributes)
  {
    isSelected := true;
    if attributes.None? || |attributes.value| == 0 {
      return true;
    }
    var pairs := attributes.value;
    var i := 0;
    while i < |pairs|
      invariant 0 <= i <= |pairs|
      invariant isSelected
      invariant forall j :: 0 <= j < i ==> !Rejects(store, vertex, pairs[j])
    {
      var attributeValue := pairs[i].attributeValue;
      match store.GetPropertyValue(vertex, pairs[i].attributeName) {
        case Found(value) =>
          if value != Wildcard && attributeValue != Some(Wildcard) && attributeValue != Some(value) {
            isSelected := false;
            break;
          }
        case Missing =>
        case Raised =>
          // the exception is logged and the next pair is examined
      }
      i := i + 1;
    }
  }

  /** A pair whose either side is the wildcard, or whose property the vertex
      lacks, never rules the vertex out. */
  lemma WildcardAndMissingNeverReject(store: KGStore, v: Vertex, a: AttributePair)
    requires || a.attributeValue == Some(Wildcard)
             || store.GetPropertyValue(v, a.attributeName) in {Found(Wildcard), Missing, Raised}
    ensures !Rejects(store, v, a)
  {
  }

  /* ---------------- Scenario scoping and Filter ---------------- */

  /** The scenario test: a blank scenario, or a vertex with a null scenario
      list (a global vertex), or a list that names the scenario. */
  predicate InScenario(v: Vertex, scenarioName: string) {
    IsBlank(scenarioName) || v.scenarios.None? || scenarioName in v.scenarios.value
  }

  /** Both tests Filter applies to a candidate. */
  predicate Passes(store: KGStore, v: Vertex, scenarioName: string, attributes: Option<seq<AttributePair>>) {
    InScenario(v, scenarioName) && Selected(store, v, attributes)
  }

  /** The candidates that pass both tests, in input order. */
  function Survivors(store: KGStore, vs: seq<Vertex>, scenarioName: string, attributes: Option<seq<AttributePair>>): (r: seq<Vertex>)
    ensures |r| <= |vs|
  {
    if |vs| == 0 then []
    else
      var last := vs[|vs| - 1];
      Survivors(store, vs[..|vs| - 1], scenarioName, attributes)
        + (if Passes(store, last, scenarioName, attributes) then [last] else [])
  }

  /** Filter's result: null for a null input and when nothing survives. */
  function Filtered(store: KGStore, vertexes: Option<seq<Vertex>>, scenarioName: string, attributes: Option<seq<AttributePair>>): (r: Option<seq<Vertex>>)
    ensures r.Some? ==> vertexes.Some? && 0 < |r.value| <= |vertexes.value|
  {
    if vertexes.None? then None
    else
      var survivors := Survivors(store, vertexes.value, scenarioName, attributes);
      if |survivors| > 0 then Some(survivors) else None
  }

  method Filter(store: KGStore, vertexes: Option<seq<Vertex>>, scenarioName: string, attributes: Option<seq<AttributePair>>)
    returns (r: Option<seq<Vertex>>)
    ensures r == Filtered(store, vertexes, scenarioName, attributes)
  {
    if vertexes.None? {
      return None;
    }
    var vs := vertexes.value;
    var results: seq<Vertex> := [];
    var i := 0;
    while i < |vs|
      invariant 0 <= i <= |vs|
      invariant results == Survivors(store, vs[..i], scenarioName, attributes)
    {
      var vertex := vs[i];
      assert vs[..i + 1][..i] == vs[..i];
      if !IsBlank(scenarioName) && vertex.scenarios.Some? && scenarioName !in vertex.scenarios.value {
        i := i + 1;
        continue;
      }
      var selected := IsSelected(store, vertex, attributes);
      if selected {
        results := results + [vertex];
      }
      i := i + 1;
    }
    assert vs[..|vs|] == vs;
    if |results| > 0 {
      return Some(results);
    } else {
      return None;
    }
  }

  /** The survivors are exactly the candidates that pass both tests. */
  lemma {:induction false} SurvivorsMembers(store: KGStore, vs: seq<Vertex>, scenarioName: string, attributes: Option<seq<AttributePair>>)
    ensures forall v :: v in Survivors(store, vs, scenarioName, attributes) <==> v in vs && Passes(store, v, scenarioName, attributes)
  {
    if |vs| > 0 {
      var init := vs[..|vs| - 1];
      SurvivorsMembers(store, init, scenarioName, attributes);
      assert vs == init + [vs[|vs| - 1]];
    }
  }

  /** The survivors keep the input order: they are a subsequence of it. */
  lemma {:induction false} SurvivorsInOrder(store: KGStore, vs: seq<Vertex>, scenarioName: string, attributes: Option<seq<AttributePair>>)
    ensures IsSubsequence(Survivors(store, vs, scenarioName, attributes), vs)
  {
    var r := Survivors(store, vs, scenarioName, attributes);
    if |vs| == 0 {
      assert Embeds([], r, vs);
    } else {
      var init := vs[..|vs| - 1];
      var last := vs[|vs| - 1];
      SurvivorsInOrder(store, init, scenarioName, attributes);
      var rest := Survivors(store, init, scenarioName, attributes);
      var idx :| Embeds(idx, rest, init);
      if Passes(store, last, scenarioName, attributes) {
        var idx' := idx + [|vs| - 1];
        assert Embeds(idx', r, vs);
      } else {
        assert Embeds(idx, r, vs);
      }
    }
  }

  /** The first survivor is the first candidate that passes. */
  lemma {:induction false} FirstSurvivor(store: KGStore, vs: seq<Vertex>, scenarioName: string, attributes: Option<seq<AttributePair>>)
    requires |Survivors(store, vs, scenarioName, attributes)| > 0
    ensures exists k :: 0 <= k < |vs| && vs[k] == Survivors(store, vs, scenarioName, attributes)[0]
              && Passes(store, vs[k], scenarioName, attributes)
              && forall j :: 0 <= j < k ==> !Passes(store, vs[j], scenarioName, attributes)
  {
    var init := vs[..|vs| - 1];
    var last := vs[|vs| - 1];
    var rest := Survivors(store, init, scenarioName, attributes);
    var r := Survivors(store, vs, scenarioName, attributes);
    assert r == rest + (if Passes(store, last, scenarioName, attributes) then [last] else []);
    if |rest| > 0 {
      FirstSurvivor(store, init, scenarioName, attributes);
      var k :| 0 <= k < |init| && init[k] == rest[0] && Passes(store, init[k], scenarioName, attributes)
               && forall j :: 0 <= j < k ==> !Passes(store, init[j], scenarioName, attributes);
      assert r[0] == rest[0];
      assert forall j :: 0 <= j < k ==> vs[j] == init[j];
      assert vs[k] == init[k];
    } else {
      SurvivorsMembers(store, init, scenarioName, attributes);
      assert r[0] == last && Passes(store, last, scenarioName, attributes);
      assert forall j :: 0 <= j < |vs| - 1 ==> vs[j] == init[j] && init[j] in init;
      assert 0 <= |vs| - 1 < |vs| && vs[|vs| - 1] == r[0];
    }
  }

  /** With a blank scenario and no attribute pairs, Filter keeps every
      candidate, whatever its scenario list. */
  lemma {:induction false} BlankScenarioKeepsAll(store: KGStore, vs: seq<Vertex>, scenarioName: string)
    requires IsBlank(scenarioName)
    ensures Survivors(store, vs, scenarioName, None) == vs
  {
    if |vs| > 0 {
      BlankScenarioKeepsAll(store, vs[..|vs| - 1], scenarioName);
      assert vs == vs[..|vs| - 1] + [vs[|vs| - 1]];
    }
  }

  /** What Filter returns: null exactly when the input is null or no
      candidate passes; otherwise the passing candidates, in input order. */
  lemma FilteredMeaning(store: KGStore, vertexes: Option<seq<Vertex>>, scenarioName: string, attributes: Option<seq<AttributePair>>)
    ensures Filtered(store, vertexes, scenarioName, attributes).None? <==>
              vertexes.None? || forall v :: v in vertexes.value ==> !Passes(store, v, scenarioName, attributes)
    ensures Filtered(store, vertexes, scenarioName, attributes).Some? ==>
              var r := Filtered(store, vertexes, scenarioName, attributes).value;
              && (forall v :: v in r <==> v in vertexes.value && Passes(store, v, scenarioName, attributes))
              && IsSubsequence(r, vertexes.value)
  {
    if vertexes.Some? {
      SurvivorsMembers(store, vertexes.value, scenarioName, attributes);
      SurvivorsInOrder(store, vertexes.value, scenarioName, attributes);
      var s := Survivors(store, vertexes.value, scenarioName, attributes);
      if |s| > 0 {
        assert s[0] in s;
      }
    }
  }

  /** Filter never returns a vertex whose non-null scenario list leaves out
      the non-blank scenario asked for. */
  lemma FilterRespectsScenario(store: KGStore, vertexes: Option<seq<Vertex>>, scenarioName: string, attributes: Option<seq<AttributePair>>)
    requires !IsBlank(scenarioName)
    requires Filtered(store, vertexes, scenarioName, attributes).Some?
    ensures forall v :: v in Filtered(store, vertexes, scenarioName, attributes).value && v.scenarios.Some? ==>
              scenarioName in v.scenarios.value
  {
    SurvivorsMembers(store, vertexes.value, scenarioName, attributes);
  }

  /* ---------------- SearchGraphByLabel and SearchGraph ---------------- */

  function SearchGraphByLabel(store: KGStore, vertexLabel: string, scenarioName: string, attributes: Option<seq<AttributePair>>)
    : (r: Option<seq<Vertex>>)
    ensures IsBlank(vertexLabel) ==> r.None?
    ensures r.Some? ==> vertexLabel in store.vertexesByLabel && 0 < |r.value| <= |store.vertexesByLabel[vertexLabel]|
  {
    if IsBlank(vertexLabel) then None
    else Filtered(store, store.GetVertexByLabel(vertexLabel), scenarioName, attributes)
  }

  /** Label search finds something exactly when the label is not blank and
      some vertex under it passes; it then returns all of those and only those. */
  lemma SearchGraphByLabelMatches(store: KGStore, vertexLabel: string, scenarioName: string, attributes: Option<seq<AttributePair>>)
    ensures SearchGraphByLabel(store, vertexLabel, scenarioName, attributes).Some? <==>
              && !IsBlank(vertexLabel) && vertexLabel in store.vertexesByLabel
                   && exists v :: v in store.vertexesByLabel[vertexLabel] && Passes(store, v, scenarioName, attributes)
    ensures SearchGraphByLabel(store, vertexLabel, scenarioName, attributes).Some? ==>
              forall v :: v in SearchGraphByLabel(store, vertexLabel, scenarioName, attributes).value
                <==> v in store.vertexesByLabel[vertexLabel] && Passes(store, v, scenarioName, attributes)
  {
    if !IsBlank(vertexLabel) {
      FilteredMeaning(store, store.GetVertexByLabel(vertexLabel), scenarioName, attributes);
    }
  }

  /** The name a rooted search starts from: none when both the name and the
      scenario are blank, the scenario's root's name when only the name is
      blank (none when no root is configured), the given name otherwise. */
  function StartName(nlu: NLUStore, startVertexName: string, scenarioName: string): (r: Option<string>)
    ensures IsBlank(startVertexName) && IsBlank(scenarioName) ==> r.None?
    ensures IsBlank(startVertexName) && !IsBlank(scenarioName) && scenarioName !in nlu.roots ==> r.None?
    ensures IsBlank(startVertexName) && !IsBlank(scenarioName) && scenarioName in nlu.roots ==>
              r == Some(nlu.roots[scenarioName].name)
    ensures !IsBlank(startVertexName) ==> r == Some(startVertexName)
  {
    if IsBlank(startVertexName) && IsBlank(scenarioName) then None
    else if IsBlank(startVertexName) then
      match nlu.GetRoot(scenarioName)
      case None => None
      case Some(root) => Some(root.name)
    else Some(startVertexName)
  }

  function SearchGraph(store: KGStore, nlu: NLUStore, startVertexName: string, scenarioName: string, attributes: Option<seq<AttributePair>>)
    : (r: Option<Vertex>)
    ensures StartName(nlu, startVertexName, scenarioName).None? ==> r.None?
  {
    match StartName(nlu, startVertexName, scenarioName)
    case None => None
    case Some(name) =>
      var results := Filtered(store, store.GetVertexByName(name), scenarioName, attributes);
      if results.Some? then Some(results.value[0]) else None
  }

  /** Once the start name is resolved, a rooted search finds a vertex
      exactly when some vertex of that name passes, and the vertex it finds
      is the first such vertex in name-index order. */
  lemma SearchGraphFirstMatch(store: KGStore, nlu: NLUStore, startVertexName: string, scenarioName: string,
                              attributes: Option<seq<AttributePair>>, name: string)
    requires StartName(nlu, startVertexName, scenarioName) == Some(name)
    ensures SearchGraph(store, nlu, startVertexName, scenarioName, attributes).Some? <==>
              name in store.vertexesByName
                   && exists v :: v in store.vertexesByName[name] && Passes(store, v, scenarioName, attributes)
    ensures SearchGraph(store, nlu, startVertexName, scenarioName, attributes).Some? ==>
              var found := SearchGraph(store, nlu, startVertexName, scenarioName, attributes).value;
              var named := store.vertexesByName[name];
              exists k :: 0 <= k < |named| && named[k] == found && Passes(store, found, scenarioName, attributes)
                && forall j :: 0 <= j < k ==> !Passes(store, named[j], scenarioName, attributes)
  {
    var candidates := store.GetVertexByName(name);
    FilteredMeaning(store, candidates, scenarioName, attributes);
    if Filtered(store, candidates, scenarioName, attributes).Some? {
      FirstSurvivor(store, candidates.value, scenarioName, attributes);
    }
  }

  /* ---------------- Child ids by relation type ---------------- */

  /** The dictionary built by the foreach over a relation-type set: one
      entry per requested type for which the store has children. */
  function PickGroups(store: KGStore, id: string, relationTypes: seq<string>, scenarioName: string): (r: seq<IdGroup>)
    ensures |r| <= |relationTypes|
  {
    if |relationTypes| == 0 then []
    else
      var rest := PickGroups(store, id, relationTypes[..|relationTypes| - 1], scenarioName);
      var relationType := relationTypes[|relationTypes| - 1];
      var cIds := store.GetChildrenIds(id, Some(relationType), scenarioName);
      if cIds.Some? && |cIds.value| > 0 then rest + [IdGroup(relationType, cIds.value[0].ids)] else rest
  }

  /** The child dictionary FilterGraph and GetChildren iterate: the store's
      own (possibly null) dictionary when no relation types are given, the
      picked one otherwise (never null). */
  function ChildGroups(store: KGStore, id: string, relationTypeSet: Option<seq<string>>, scenarioName: string)
    : (r: Option<seq<IdGroup>>)
    ensures relationTypeSet.Some? ==> r.Some?
  {
    if relationTypeSet.None? then store.GetChildrenIds(id, None, scenarioName)
    else Some(PickGroups(store, id, relationTypeSet.value, scenarioName))
  }

  method CollectChildIds(store: KGStore, id: string, relationTypeSet: Option<seq<string>>, scenarioName: string)
    returns (childrenIds: Option<seq<IdGroup>>)
    ensures childrenIds == ChildGroups(store, id, relationTypeSet, scenarioName)
  {
    if relationTypeSet.None? {
      return store.GetChildrenIds(id, None, scenarioName);
    }
    var relationTypes := relationTypeSet.value;
    var groups: seq<IdGroup> := [];
    var i := 0;
    while i < |relationTypes|
      invariant 0 <= i <= |relationTypes|
      invariant groups == PickGroups(store, id, relationTypes[..i], scenarioName)
    {
      assert relationTypes[..i + 1][..i] == relationTypes[..i];
      var relationType := relationTypes[i];
      var cIds := store.GetChildrenIds(id, Some(relationType), scenarioName);
      if cIds.Some? && |cIds.value| > 0 {
        // cIds[relationType]: the store's one-entry dictionary
        groups := groups + [IdGroup(relationType, cIds.value[0].ids)];
      }
      i := i + 1;
    }
    assert relationTypes[..|relationTypes|] == relationTypes;
    return Some(groups);
  }

  /** One more requested relation type appends the store's group for it,
      if there is one. */
  lemma PickGroupsStep(store: KGStore, id: string, relationTypes: seq<string>, scenarioName: string)
    requires |relationTypes| > 0
    ensures var init := relationTypes[..|relationTypes| - 1];
            var t := relationTypes[|relationTypes| - 1];
            var rest := PickGroups(store, id, init, scenarioName);
            PickGroups(store, id, relationTypes, scenarioName) ==
              if (id, scenarioName) in store.childIds && GroupOf(store.childIds[(id, scenarioName)], t).Some?
              then rest + [GroupOf(store.childIds[(id, scenarioName)], t).value]
              else rest
  {
  }

  /** Every picked group is the store's group for a requested type. */
  lemma {:induction false} PickedFromStore(store: KGStore, id: string, relationTypes: seq<string>, scenarioName: string)
    ensures forall g :: g in PickGroups(store, id, relationTypes, scenarioName) ==>
              && g.relationType in relationTypes
              && (id, scenarioName) in store.childIds
              && GroupOf(store.childIds[(id, scenarioName)], g.relationType) == Some(g)
  {
    if |relationTypes| > 0 {
      var init := relationTypes[..|relationTypes| - 1];
      PickedFromStore(store, id, init, scenarioName);
      PickGroupsStep(store, id, relationTypes, scenarioName);
      assert forall t :: t in init ==> t in relationTypes;
    }
  }

  /** Every requested type the store has a group for is picked. */
  lemma {:induction false} PickedComplete(store: KGStore, id: string, relationTypes: seq<string>, scenarioName: string)
    ensures forall t :: t in relationTypes && (id, scenarioName) in store.childIds
              && GroupOf(store.childIds[(id, scenarioName)], t).Some?
              ==> GroupOf(store.childIds[(id, scenarioName)], t).value in PickGroups(store, id, relationTypes, scenarioName)
  {
    if |relationTypes| > 0 {
      var init := relationTypes[..|relationTypes| - 1];
      PickedComplete(store, id, init, scenarioName);
      PickGroupsStep(store, id, relationTypes, scenarioName);
      assert relationTypes == init + [relationTypes[|relationTypes| - 1]];
    }
  }

  /** Unique requested types give a dictionary with unique keys. */
  lemma {:induction false} PickedDistinct(store: KGStore, id: string, relationTypes: seq<string>, scenarioName: string)
    requires Distinct(relationTypes)
    ensures DistinctTypes(PickGroups(store, id, relationTypes, scenarioName))
  {
    if |relationTypes| > 0 {
      var init := relationTypes[..|relationTypes| - 1];
      var relationType := relationTypes[|relationTypes| - 1];
      assert relationTypes == init + [relationType];
      assert Distinct(init);
      assert relationType !in init;
      PickedDistinct(store, id, init, scenarioName);
      PickedFromStore(store, id, init, scenarioName);
      PickGroupsStep(store, id, relationTypes, scenarioName);
      var rest := PickGroups(store, id, init, scenarioName);
      assert forall g :: g in rest ==> g.relationType != relationType;
    }
  }

  /** The picked dictionary holds, for every requested relation type the
      store has children under, the store's group for it, and nothing else;
      its keys are unique when the requested types are. */
  lemma PickGroupsFromStore(store: KGStore, id: string, relationTypes: seq<string>, scenarioName: string)
    ensures forall g :: g in PickGroups(store, id, relationTypes, scenarioName) ==>
              && g.relationType in relationTypes
              && (id, scenarioName) in store.childIds
              && GroupOf(store.childIds[(id, scenarioName)], g.relationType) == Some(g)
    ensures forall t :: t in relationTypes && (id, scenarioName) in store.childIds
              && GroupOf(store.childIds[(id, scenarioName)], t).Some?
              ==> GroupOf(store.childIds[(id, scenarioName)], t).value in PickGroups(store, id, relationTypes, scenarioName)
    ensures Distinct(relationTypes) ==> DistinctTypes(PickGroups(store, id, relationTypes, scenarioName))
  {
    PickedFromStore(store, id, relationTypes, scenarioName);
    PickedComplete(store, id, relationTypes, scenarioName);
    if Distinct(relationTypes) {
      PickedDistinct(store, id, relationTypes, scenarioName);
    }
  }

  /* ---------------- GetChildren ---------------- */

  /** The children listed by `ids` that exist and pass the attribute filter,
      in id order. */
  function Kept(store: KGStore, attributes: Option<seq<AttributePair>>, ids: seq<string>): (r: seq<Vertex>)
    ensures |r| <= |ids|
  {
    if |ids| == 0 then []
    else
      var rest := Kept(store, attributes, ids[..|ids| - 1]);
      var child := store.GetVertexById(ids[|ids| - 1]);
      if child.Some? && Selected(store, child.value, attributes) then rest + [child.value] else rest
  }

  /** The result dictionary of GetChildren: one bucket per relation type
      whose filtered children are not all gone. */
  function Buckets(store: KGStore, attributes: Option<seq<AttributePair>>, groups: seq<IdGroup>): map<string, seq<Vertex>>
  {
    if |groups| == 0 then map[]
    else
      var rest := Buckets(store, attributes, groups[..|groups| - 1]);
      var last := groups[|groups| - 1];
      var vertexes := Kept(store, attributes, last.ids);
      if |vertexes| > 0 then rest[last.relationType := vertexes] else rest
  }

  /** GetChildren's result: null for a leaf and for a null or empty child
      dictionary, the filtered buckets otherwise. */
  function Children(store: KGStore, vertex: Vertex, relationTypeSet: Option<seq<string>>,
                    attributes: Option<seq<AttributePair>>, scenarioName: string)
    : (r: Option<map<string, seq<Vertex>>>)
    ensures store.IsLeaf(vertex) ==> r.None?
  {
    if store.IsLeaf(vertex) then None
    else match ChildGroups(store, vertex.id, relationTypeSet, scenarioName)
      case None => None
      case Some(groups) => if |groups| == 0 then None else Some(Buckets(store, attributes, groups))
  }

  /** The inner loop of GetChildren: the children listed by `ids` that
      exist and pass the attribute filter, in id order. */
  method KeepChildren(store: KGStore, attributes: Option<seq<AttributePair>>, ids: seq<string>)
    returns (vertexes: seq<Vertex>)
    ensures vertexes == Kept(store, attributes, ids)
  {
    vertexes := [];
    var j := 0;
    while j < |ids|
      invariant 0 <= j <= |ids|
      invariant vertexes == Kept(store, attributes, ids[..j])
    {
      assert ids[..j + 1][..j] == ids[..j];
      var child := store.GetVertexById(ids[j]);
      if child.Some? {
        var selected := IsSelected(store, child.value, attributes);
        if selected {
          vertexes := vertexes + [child.value];
        }
      }
      j := j + 1;
    }
    assert ids[..|ids|] == ids;
  }

  method GetChildren(store: KGStore, vertex: Vertex, relationTypeSet: Option<seq<string>>,
                     attributes: Option<seq<AttributePair>>, scenarioName: string)
    returns (r: Option<map<string, seq<Vertex>>>)
    ensures r == Children(store, vertex, relationTypeSet, attributes, scenarioName)
  {
    if store.IsLeaf(vertex) {
      return None;
    }
    var childrenIds := CollectChildIds(store, vertex.id, relationTypeSet, scenarioName);
    if childrenIds.None? || |childrenIds.value| == 0 {
      return None;
    }
    var groups := childrenIds.value;
    var results: map<string, seq<Vertex>> := map[];
    var g := 0;
    while g < |groups|
      invariant 0 <= g <= |groups|
      invariant results == Buckets(store, attributes, groups[..g])
    {
      var vertexes := KeepChildren(store, attributes, groups[g].ids);
      assert groups[..g + 1][..g] == groups[..g];
      if |vertexes| > 0 {
        results := results[groups[g].relationType := vertexes];
      }
      g := g + 1;
    }
    assert groups[..|groups|] == groups;
    return Some(results);
  }

  /** A kept vertex is an existing child listed by the ids that passes the
      attribute filter, and every such child is kept. */
  lemma {:induction false} KeptMembers(store: KGStore, attributes: Option<seq<AttributePair>>, ids: seq<string>)
    ensures forall v :: v in Kept(store, attributes, ids) <==>
              exists j :: 0 <= j < |ids| && ids[j] in store.vertexById && store.vertexById[ids[j]] == v
                          && Selected(store, v, attributes)
  {
    if |ids| > 0 {
      var init := ids[..|ids| - 1];
      KeptMembers(store, attributes, init);
      assert forall j :: 0 <= j < |init| ==> ids[j] == init[j];
    }
  }

  /** The child listed as `id` exists and passes the attribute filter. */
  predicate Keeps(store: KGStore, attributes: Option<seq<AttributePair>>, id: string) {
    id in store.vertexById && Selected(store, store.vertexById[id], attributes)
  }

  /** `idx` lists, in increasing order, exactly the positions of `ids` whose
      child exists and passes the attribute filter, and `kept` holds those
      children in that order. */
  ghost predicate KeptAt(store: KGStore, attributes: Option<seq<AttributePair>>, ids: seq<string>,
                         kept: seq<Vertex>, idx: seq<int>)
  {
    && |idx| == |kept|
    && (forall i, j :: 0 <= i < j < |idx| ==> idx[i] < idx[j])
    && (forall i :: 0 <= i < |idx| ==> 0 <= idx[i] < |ids| && ids[idx[i]] in store.vertexById && kept[i] == store.vertexById[ids[idx[i]]])
    && (forall j :: 0 <= j < |ids| ==> (j in idx <==> Keeps(store, attributes, ids[j])))
  }

  /** A kept last id extends the positions by its own position. */
  lemma KeptAtKeep(store: KGStore, attributes: Option<seq<AttributePair>>, ids: seq<string>, rest: seq<Vertex>, idx: seq<int>)
    requires |ids| > 0 && Keeps(store, attributes, ids[|ids| - 1])
    requires KeptAt(store, attributes, ids[..|ids| - 1], rest, idx)
    ensures KeptAt(store, attributes, ids, rest + [store.vertexById[ids[|ids| - 1]]], idx + [|ids| - 1])
  {
    var n := |ids| - 1;
    var kept, idx' := rest + [store.vertexById[ids[n]]], idx + [n];
    forall i, j | 0 <= i < j < |idx'|
      ensures idx'[i] < idx'[j]
    {
      if j < |idx| {
        assert idx'[i] == idx[i] && idx'[j] == idx[j];
      } else {
        assert idx'[i] == idx[i] < n;
      }
    }
    forall i | 0 <= i < |idx'|
      ensures 0 <= idx'[i] < |ids| && ids[idx'[i]] in store.vertexById && kept[i] == store.vertexById[ids[idx'[i]]]
    {
      if i < |idx| {
        assert idx'[i] == idx[i] && kept[i] == rest[i] && ids[idx[i]] == ids[..n][idx[i]];
      }
    }
    forall j | 0 <= j < |ids|
      ensures j in idx' <==> Keeps(store, attributes, ids[j])
    {
      if j < n {
        assert ids[j] == ids[..n][j];
        assert j in idx' <==> j in idx;
      }
    }
  }

  /** A last id that is not kept leaves the positions as they are. */
  lemma KeptAtSkip(store: KGStore, attributes: Option<seq<AttributePair>>, ids: seq<string>, rest: seq<Vertex>, idx: seq<int>)
    requires |ids| > 0 && !Keeps(store, attributes, ids[|ids| - 1])
    requires KeptAt(store, attributes, ids[..|ids| - 1], rest, idx)
    ensures KeptAt(store, attributes, ids, rest, idx)
  {
    var n := |ids| - 1;
    forall i | 0 <= i < |idx|
      ensures 0 <= idx[i] < |ids| && ids[idx[i]] in store.vertexById && rest[i] == store.vertexById[ids[idx[i]]]
    {
      assert ids[idx[i]] == ids[..n][idx[i]];
    }
    forall j | 0 <= j < |ids|
      ensures j in idx <==> Keeps(store, attributes, ids[j])
    {
      if j < n {
        assert ids[j] == ids[..n][j];
      } else {
        assert j !in idx;
      }
    }
  }

  /** The positions of the kept ids. */
  lemma {:induction false} KeptPositions(store: KGStore, attributes: Option<seq<AttributePair>>, ids: seq<string>)
    returns (idx: seq<int>)
    ensures KeptAt(store, attributes, ids, Kept(store, attributes, ids), idx)
  {
    if |ids| == 0 {
      assert Kept(store, attributes, ids) == [];
      idx := [];
    } else {
      var n := |ids| - 1;
      var rest := Kept(store, attributes, ids[..n]);
      var prev := KeptPositions(store, attributes, ids[..n]);
      if Keeps(store, attributes, ids[n]) {
        KeptAtKeep(store, attributes, ids, rest, prev);
        assert Kept(store, attributes, ids) == rest + [store.vertexById[ids[n]]];
        idx := prev + [n];
      } else {
        KeptAtSkip(store, attributes, ids, rest, prev);
        assert Kept(store, attributes, ids) == rest;
        idx := prev;
      }
    }
  }

  /** A bucket keeps the id order of its group: it is the in-order image of
      the listed ids whose child exists and passes the filter, each counted
      once per listing. */
  lemma KeptInOrder(store: KGStore, attributes: Option<seq<AttributePair>>, ids: seq<string>)
    ensures exists idx :: KeptAt(store, attributes, ids, Kept(store, attributes, ids), idx)
  {
    var idx := KeptPositions(store, attributes, ids);
  }

  /** A bucket exists exactly for the relation types whose kept children
      are not empty. */
  lemma {:induction false} BucketsKeys(store: KGStore, attributes: Option<seq<AttributePair>>, groups: seq<IdGroup>)
    ensures forall k :: k in Buckets(store, attributes, groups) <==>
              exists i :: 0 <= i < |groups| && groups[i].relationType == k && |Kept(store, attributes, groups[i].ids)| > 0
  {
    if |groups| > 0 {
      var n := |groups| - 1;
      var init := groups[..n];
      BucketsKeys(store, attributes, init);
      assert forall i :: 0 <= i < n ==> groups[i] == init[i];
      forall k | k in Buckets(store, attributes, init)
        ensures exists i :: 0 <= i < |groups| && groups[i].relationType == k && |Kept(store, attributes, groups[i].ids)| > 0
      {
        var i :| 0 <= i < n && init[i].relationType == k && |Kept(store, attributes, init[i].ids)| > 0;
        assert groups[i] == init[i];
      }
    }
  }

  /** With unique keys, the bucket of a relation type holds the kept
      children of its group. */
  lemma {:induction false} BucketsValues(store: KGStore, attributes: Option<seq<AttributePair>>, groups: seq<IdGroup>)
    requires DistinctTypes(groups)
    ensures forall i :: 0 <= i < |groups| && |Kept(store, attributes, groups[i].ids)| > 0 ==>
              && groups[i].relationType in Buckets(store, attributes, groups)
              && Buckets(store, attributes, groups)[groups[i].relationType] == Kept(store, attributes, groups[i].ids)
  {
    if |groups| > 0 {
      var n := |groups| - 1;
      var init, last := groups[..n], groups[n];
      assert DistinctTypes(init);
      BucketsValues(store, attributes, init);
      forall i | 0 <= i < n && |Kept(store, attributes, groups[i].ids)| > 0
        ensures groups[i].relationType in Buckets(store, attributes, groups)
        ensures Buckets(store, attributes, groups)[groups[i].relationType] == Kept(store, attributes, groups[i].ids)
      {
        assert groups[i] == init[i];
        assert groups[i].relationType != last.relationType;
      }
    }
  }

  /** The dictionary GetChildren iterates has unique relation types, all of
      them requested ones when a set is given. */
  lemma ChildGroupsShape(store: KGStore, id: string, relationTypeSet: Option<seq<string>>, scenarioName: string)
    requires store.Valid()
    requires relationTypeSet.Some? ==> Distinct(relationTypeSet.value)
    requires ChildGroups(store, id, relationTypeSet, scenarioName).Some?
    ensures DistinctTypes(ChildGroups(store, id, relationTypeSet, scenarioName).value)
    ensures relationTypeSet.Some? ==>
              var groups := ChildGroups(store, id, relationTypeSet, scenarioName).value;
              forall i :: 0 <= i < |groups| ==> groups[i].relationType in relationTypeSet.value
  {
    if relationTypeSet.Some? {
      PickGroupsFromStore(store, id, relationTypeSet.value, scenarioName);
      var groups := ChildGroups(store, id, relationTypeSet, scenarioName).value;
      assert forall i :: 0 <= i < |groups| ==> groups[i] in groups;
    }
  }

  /** With unique relation types, a bucket exists exactly for the groups
      with surviving children, and holds those children. */
  lemma BucketsMeaning(store: KGStore, attributes: Option<seq<AttributePair>>, groups: seq<IdGroup>)
    requires DistinctTypes(groups)
    ensures var buckets := Buckets(store, attributes, groups);
            forall k :: k in buckets ==>
              |buckets[k]| > 0 && exists i :: 0 <= i < |groups| && groups[i].relationType == k
                                             && buckets[k] == Kept(store, attributes, groups[i].ids)
    ensures var buckets := Buckets(store, attributes, groups);
            forall i :: 0 <= i < |groups| ==>
              (groups[i].relationType in buckets <==> |Kept(store, attributes, groups[i].ids)| > 0)
  {
    BucketsKeys(store, attributes, groups);
    BucketsValues(store, attributes, groups);
    var buckets := Buckets(store, attributes, groups);
    forall i | 0 <= i < |groups|
      ensures groups[i].relationType in buckets <==> |Kept(store, attributes, groups[i].ids)| > 0
    {
      if groups[i].relationType in buckets {
        var i' :| 0 <= i' < |groups| && groups[i'].relationType == groups[i].relationType
                  && |Kept(store, attributes, groups[i'].ids)| > 0;
        assert i' == i;
      }
    }
  }

  /** GetChildren returns null exactly for a leaf and for a null or empty
      child dictionary. Otherwise each bucket is keyed by a relation type of
      that dictionary (a requested one when a set is given) and holds the
      existing children listed under it that pass the attribute filter;
      relation types left with no such child get no bucket. */
  lemma GetChildrenMeaning(store: KGStore, vertex: Vertex, relationTypeSet: Option<seq<string>>,
                           attributes: Option<seq<AttributePair>>, scenarioName: string)
    requires store.Valid()
    requires relationTypeSet.Some? ==> Distinct(relationTypeSet.value)
    ensures var groups := ChildGroups(store, vertex.id, relationTypeSet, scenarioName);
            Children(store, vertex, relationTypeSet, attributes, scenarioName).None? <==>
              store.IsLeaf(vertex) || groups.None? || |groups.value| == 0
    ensures Children(store, vertex, relationTypeSet, attributes, scenarioName).Some? ==>
              var groups := ChildGroups(store, vertex.id, relationTypeSet, scenarioName).value;
              var buckets := Children(store, vertex, relationTypeSet, attributes, scenarioName).value;
              && (forall k :: k in buckets ==> (relationTypeSet.Some? ==> k in relationTypeSet.value))
              && (forall k :: k in buckets ==>
                    |buckets[k]| > 0 && exists i :: 0 <= i < |groups| && groups[i].relationType == k
                                                   && buckets[k] == Kept(store, attributes, groups[i].ids))
              && (forall i :: 0 <= i < |groups| ==>
                    (groups[i].relationType in buckets <==> |Kept(store, attributes, groups[i].ids)| > 0))
  {
    var childGroups := ChildGroups(store, vertex.id, relationTypeSet, scenarioName);
    if !store.IsLeaf(vertex) && childGroups.Some? && |childGroups.value| > 0 {
      var groups := childGroups.value;
      assert Children(store, vertex, relationTypeSet, attributes, scenarioName) == Some(Buckets(store, attributes, groups));
      ChildGroupsShape(store, vertex.id, relationTypeSet, scenarioName);
      BucketsMeaning(store, attributes, groups);
    }
  }
}
