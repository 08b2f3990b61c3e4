# SmartKG query layer in Dafny

SmartKG serves a knowledge graph that is loaded into memory: vertices with
properties and scenario tags, edges labelled with relation types, and a
per-scenario root vertex configured for the NLU front end. This project
models the two classes that answer queries over that graph and proves
what they return.

- **DataManager** (`DataManager.dfy`, `FilterGraph.dfy`) is the query engine. It covers:
  - the attribute filter with its `"ALL"` wildcard;
  - scenario scoping, where a vertex with a null scenario list is global;
  - search by label;
  - rooted search by name, falling back to the scenario's root vertex;
  - one-level child enumeration;
  - `FilterGraph`, the breadth-first extraction of the qualifying leaf descendants of a start vertex, bucketed by relation type.
- **GraphExecutor** (`GraphExecutor.dfy`) is the visualization adapter. It covers:
  - the vertex and edge projections;
  - keyword search;
  - exact property filtering;
  - scenario names and color configuration;
  - scenario drawings;
  - the one-hop neighbourhood of a vertex: property pseudo-vertices, then children, then parents.

`KnowledgeGraph.dfy` holds the data model. The graph store, the NLU store
and the data frame are immutable values: finite maps and sequences for their
indices. Their operations whose code is not part of this model are
function-valued fields:

- the property accessor, which returns a value, returns null or throws;
- keyword search;
- the by-scenario queries.

A dictionary the classes read is a sequence of (relation type, ids) groups in
enumeration order. A dictionary they build is a `map`. A nullable reference
is an `Option`, and an exception is the `Failure` side of a `Result`.

Every method with a loop except `GraphExecutor.GetScenarioNames` has its
result fixed by its contract. Most are proved equal to a specification
function of their inputs, and the lemmas state what those functions mean.
`GraphExecutor.SearchVertexesByName` and `GraphExecutor.GetColorConfigs` are
pinned down element by element or through `Concat` and `ColorsOf`.
`GetScenarioNames` walks a set, whose enumeration order the source leaves
open, so its result is fixed only up to order: its contract gives the
members, the absence of duplicates and the length.

`FilterGraph.dfy` also holds a corrected traversal (`Traverse`,
`FilterGraphVisited`) for the defects listed under "## Findings". It files
a qualifying leaf itself, files it at most once per bucket (each vertex
is to be reported once), skips a vertex with a null child dictionary, and
keeps a visited set of vertex ids. A leaf listed under two relation types
still appears in both buckets.

## Model

| member | source | states |
|---|---|---|
| `DataManager.IsSelected` | src/SmartKG.Common/DataStore/DataManager.cs:272-300 | true exactly when no attribute pair rejects the vertex (a null or empty list rejects nothing); a pair rejects only when the vertex has a non-null value, neither side is `"ALL"`, and the values differ; an accessor exception is swallowed |
| `DataManager.WildcardAndMissingNeverReject` | src/SmartKG.Common/DataStore/DataManager.cs:282-296 | a pair with an `"ALL"` side, a missing property or a throwing accessor never rejects |
| `DataManager.Filter` | src/SmartKG.Common/DataStore/DataManager.cs:137-172 | the loop returns null for a null list and when nothing survives, otherwise the survivors of the scenario test and the attribute filter in input order |
| `DataManager.SurvivorsMembers` | src/SmartKG.Common/DataStore/DataManager.cs:143-155 | a vertex survives exactly when it is a candidate that passes both tests |
| `DataManager.SurvivorsInOrder` | src/SmartKG.Common/DataStore/DataManager.cs:143-155 | the survivors are a subsequence of the candidates |
| `DataManager.FirstSurvivor` | src/SmartKG.Common/DataStore/DataManager.cs:125-130 | the first survivor, which SearchGraph returns, is the first candidate that passes both tests |
| `DataManager.BlankScenarioKeepsAll` | src/SmartKG.Common/DataStore/DataManager.cs:145-153 | a blank scenario with no attribute list keeps every candidate |
| `DataManager.FilteredMeaning` | src/SmartKG.Common/DataStore/DataManager.cs:137-172 | null exactly when the input is null or no candidate passes; otherwise membership is exactly "candidate that passes", in input order |
| `DataManager.FilterRespectsScenario` | src/SmartKG.Common/DataStore/DataManager.cs:143-154 | for a non-blank scenario no returned vertex has a non-null scenario list leaving it out |
| `DataManager.SearchGraphByLabel` | src/SmartKG.Common/DataStore/DataManager.cs:59-70 | null for a blank label; a result comes from the label index and is no longer than the indexed list |
| `DataManager.SearchGraphByLabelMatches` | src/SmartKG.Common/DataStore/DataManager.cs:59-70 | a result exists exactly when the label is not blank and some indexed vertex passes the filter, and then it holds exactly those vertices |
| `DataManager.StartName` | src/SmartKG.Common/DataStore/DataManager.cs:74-89 | no start when name and scenario are both blank, or the name is blank and the scenario has no root; the root's name when the name is blank; the given name otherwise |
| `DataManager.SearchGraph` | src/SmartKG.Common/DataStore/DataManager.cs:72-135 | null whenever the start name does not resolve |
| `DataManager.SearchGraphFirstMatch` | src/SmartKG.Common/DataStore/DataManager.cs:91-135 | with the name resolved, a vertex is found exactly when some vertex of that name passes the filter, and it is the first such vertex |
| `DataManager.PickGroups` | src/SmartKG.Common/DataStore/DataManager.cs:223-230 | at most one child group per requested relation type |
| `DataManager.ChildGroups` | src/SmartKG.Common/DataStore/DataManager.cs:215-231 | with a relation-type set the child dictionary is never null (only the store's own dictionary can be) |
| `DataManager.CollectChildIds` | src/SmartKG.Common/DataStore/DataManager.cs:312-329 | the foreach that builds the child dictionary returns the ChildGroups dictionary |
| `DataManager.PickGroupsFromStore` | src/SmartKG.Common/DataStore/DataManager.cs:316-324 | every picked group is a requested type with the store's ids under it; every requested type the store has is picked; a duplicate-free set gives unique keys |
| `DataManager.Kept` | src/SmartKG.Common/DataStore/DataManager.cs:343-348 | no more kept children than listed ids |
| `DataManager.KeptMembers` | src/SmartKG.Common/DataStore/DataManager.cs:343-348 | a vertex is kept exactly when it is the store's vertex for a listed id and passes the attribute filter |
| `DataManager.KeptInOrder` | src/SmartKG.Common/DataStore/DataManager.cs:343-348 | a bucket is the in-order image of the listed ids whose child exists and passes the filter: one entry per such position, in id order |
| `DataManager.BucketsKeys` | src/SmartKG.Common/DataStore/DataManager.cs:350-353 | a bucket exists exactly for the relation types with a non-empty kept list |
| `DataManager.BucketsValues` | src/SmartKG.Common/DataStore/DataManager.cs:339-355 | with unique keys each bucket is exactly its group's kept list |
| `DataManager.Children` | src/SmartKG.Common/DataStore/DataManager.cs:304-308 | null for a leaf vertex |
| `DataManager.GetChildren` | src/SmartKG.Common/DataStore/DataManager.cs:302-358 | the nested loops return the Children dictionary |
| `DataManager.KeepChildren` | src/SmartKG.Common/DataStore/DataManager.cs:341-348 | the inner loop over one relation type's ids returns exactly Kept: the existing selected children in id order |
| `DataManager.GetChildrenMeaning` | src/SmartKG.Common/DataStore/DataManager.cs:302-358 | null exactly for a leaf or a null or empty child dictionary; otherwise keys are the relation types with surviving children, and each bucket holds the existing selected children in id order |
| `KnowledgeGraph.GroupOf` | src/SmartKG.Common/DataStore/DataManager.cs:225-228 | the dictionary lookup finds a group with the requested key, or none exists |
| `KnowledgeGraph.FlattenEntries` | src/SmartKG.Common/DataStore/DataManager.cs:236-238 | each (relation type, id) met by the nested foreach is listed by a group with that key |
| `FilterGraphTraversal.FilterGraph` | src/SmartKG.Common/DataStore/DataManager.cs:174-270 | the worklist loop, run with a bound on expansions, returns FilterGraphSpec: the start resolution, then the loop, or Spins or OutOfFuel |
| `FilterGraphTraversal.ExpandVertex` | src/SmartKG.Common/DataStore/DataManager.cs:236-264 | one expansion visits the child dictionary's entries in enumeration order |
| `FilterGraphTraversal.VisitChildren` | src/SmartKG.Common/DataStore/DataManager.cs:238-262 | the inner foreach visits one relation type's ids in order |
| `FilterGraphTraversal.VisitShaped` | src/SmartKG.Common/DataStore/DataManager.cs:240-260 | one child keeps the loop invariant: queued vertices are non-leaf store vertices; bucket keys are requested types; a bucket starts with a vertex already taken from the worklist, and its other entries are selected store leaves; the worklist only grows at its end |
| `FilterGraphTraversal.VisitAllShaped` | src/SmartKG.Common/DataStore/DataManager.cs:236-264 | a whole expansion keeps the same invariant |
| `FilterGraphTraversal.RunShaped` | src/SmartKG.Common/DataStore/DataManager.cs:210-268 | a loop that returns from a state meeting the invariant returns a dictionary shaped as described in the next row |
| `FilterGraphTraversal.FilterGraphBuckets` | src/SmartKG.Common/DataStore/DataManager.cs:223-260 | a returned dictionary has requested keys only. Each bucket is non-empty. Its first entry is the start vertex or a non-leaf store vertex (line 253). Its other entries are selected store leaves |
| `FilterGraphTraversal.RunNeverNull` | src/SmartKG.Common/DataStore/DataManager.cs:210-268 | the loop never returns null |
| `FilterGraphTraversal.FilterGraphNull` | src/SmartKG.Common/DataStore/DataManager.cs:177-203 | null exactly when the start name does not resolve or the start vertex is not found or fails the filters |
| `FilterGraphTraversal.NullChildMapSpins` | src/SmartKG.Common/DataStore/DataManager.cs:217-234 | without a relation-type set, a start vertex with no child dictionary in the scenario makes the loop spin |
| `FilterGraphTraversal.CycleRuns` | src/SmartKG.Common/DataStore/DataManager.cs:257-259 | on a self-looping vertex every expansion queues the vertex again |
| `FilterGraphTraversal.CycleNeverReturns` | src/SmartKG.Common/DataStore/DataManager.cs:210-266 | on the self-looping example store (one vertex listing itself as its child, started from it) the traversal does not return within any number of expansions |
| `FilterGraphTraversal.Line253RecordsExpandedVertex` | src/SmartKG.Common/DataStore/DataManager.cs:247-254 | with two qualifying leaves RAM and Warranty under "hasSpec", the bucket is [Laptop, Warranty]: the expanded vertex, then the second leaf |
| `FilterGraphTraversal.FilterGraphVisited` | src/SmartKG.Common/DataStore/DataManager.cs:174-270 | the corrected worklist loop, with a visited set, returns the dictionary of Traverse, and returns one exactly when Traverse does; Traverse always ends, because each expansion uses up a position of the worklist and the worklist only grows by using up an unvisited store vertex |
| `FilterGraphTraversal.WalkFrom` | src/SmartKG.Common/DataStore/DataManager.cs:210-266 | the corrected while loop, from the start vertex with its id already visited, returns the dictionary RunVisited computes |
| `FilterGraphTraversal.ExpandQueued` | src/SmartKG.Common/DataStore/DataManager.cs:212-234 | one pass of the corrected loop body yields exactly StepAll over the expanded vertex's child entries; a null child dictionary contributes no entries, so the vertex is skipped and the state is unchanged |
| `FilterGraphTraversal.ExpandVisited` | src/SmartKG.Common/DataStore/DataManager.cs:236-264 | one corrected expansion visits the child dictionary's entries in enumeration order |
| `FilterGraphTraversal.VisitChildrenVisited` | src/SmartKG.Common/DataStore/DataManager.cs:238-262 | the corrected inner foreach visits one relation type's ids in order; a qualifying leaf is filed itself and at most once per bucket, and a non-leaf child is queued only if its id is unvisited |
| `FilterGraphTraversal.StepAllFacts` | src/SmartKG.Common/DataStore/DataManager.cs:236-262 | a corrected expansion files every qualifying leaf it meets under its relation type, marks every non-leaf child it meets as queued, only extends the state, and keeps queued ids distinct and buckets free of repeats |
| `FilterGraphTraversal.RunVisitedFacts` | src/SmartKG.Common/DataStore/DataManager.cs:210-266 | the corrected loop ends with every queued vertex expanded, every entry it met handled, no id queued twice and every bucket a duplicate-free list of selected store leaves under a requested key |
| `FilterGraphTraversal.StepAllAdds` | src/SmartKG.Common/DataStore/DataManager.cs:236-262 | a corrected expansion only extends the state, and everything it adds comes from the entries it meets: a newly filed leaf is the store vertex of an entry carrying its bucket's relation type, and a newly queued vertex is a non-leaf store vertex of an entry |
| `FilterGraphTraversal.RunVisitedSourced` | src/SmartKG.Common/DataStore/DataManager.cs:210-266 | the corrected loop ends with every filed leaf listed under its bucket's relation type by an expanded vertex, and every queued vertex after the start a non-leaf listed by a vertex expanded before it |
| `FilterGraphTraversal.TraverseMeaning` | src/SmartKG.Common/DataStore/DataManager.cs:174-270 | the corrected traversal returns a dictionary exactly when the start resolves and is found. The worklist starts with the start vertex and no id is expanded twice. Every bucket has a requested key and holds distinct selected store leaves. Both directions hold between filed leaves and listed ones. Every filed leaf is listed under its bucket's relation type by an expanded vertex. Every expanded vertex after the start is a non-leaf listed by a vertex expanded before it, so it is reachable from the start. Conversely, every selected leaf listed by an expanded vertex is filed under its relation type, and every non-leaf child of an expanded vertex is itself expanded |
| `FilterGraphTraversal.ShopTraverse` | src/SmartKG.Common/DataStore/DataManager.cs:247-254 | on the laptop example the corrected traversal returns hasSpec → [RAM, Warranty], and expands only Laptop |
| `GraphExecutor.ConvertVertex` | src/SmartKG.KGManagement/GraphSearch/GraphExecutor.cs:276-290 | null to null; otherwise id, name and label are copied and the display name is the name |
| `GraphExecutor.VisualizeForgets` | src/SmartKG.KGManagement/GraphSearch/GraphExecutor.cs:283-287 | two vertices draw alike exactly when they agree on id, name and label |
| `GraphExecutor.ConvertEdge` | src/SmartKG.KGManagement/GraphSearch/GraphExecutor.cs:292-305 | null to null; head becomes source, tail target, relation type value |
| `GraphExecutor.ConvertEdgeRoundTrip` | src/SmartKG.KGManagement/GraphSearch/GraphExecutor.cs:292-305 | edge conversion is inverted by EdgeOf in both directions |
| `GraphExecutor.GetVertexById` | src/SmartKG.KGManagement/GraphSearch/GraphExecutor.cs:38-46 | null exactly for an unknown id, otherwise the converted vertex |
| `GraphExecutor.SearchVertexesByName` | src/SmartKG.KGManagement/GraphSearch/GraphExecutor.cs:48-65 | null exactly for a null or empty lookup; otherwise the same length with element i the converted element i |
| `GraphExecutor.PropertyMatches` | src/SmartKG.KGManagement/GraphSearch/GraphExecutor.cs:83-104 | the only exception is the accessor's, and the result is no longer than the vertex list |
| `GraphExecutor.FilterVertexesByProperty` | src/SmartKG.KGManagement/GraphSearch/GraphExecutor.cs:67-105 | throws "Invalid input: propertyName is empty." or "...propertyValue is empty." for an empty argument; otherwise the loop returns PropertyMatches over all vertices |
| `GraphExecutor.PropertyMatchesRaisedSticks` | src/SmartKG.KGManagement/GraphSearch/GraphExecutor.cs:87-89 | once the accessor has thrown, the whole filter throws |
| `GraphExecutor.PropertyMatchesFails` | src/SmartKG.KGManagement/GraphSearch/GraphExecutor.cs:87-89 | the filter throws exactly when the accessor throws on some vertex |
| `GraphExecutor.PropertyMatchesMembers` | src/SmartKG.KGManagement/GraphSearch/GraphExecutor.cs:87-102 | the result holds exactly the converted vertices whose value is non-blank and equal to the requested one |
| `GraphExecutor.PropertyMatchesInOrder` | src/SmartKG.KGManagement/GraphSearch/GraphExecutor.cs:87-102 | the result is the in-order image of the matching vertices: one converted vertex per matching position, in the order of the vertex list |
| `GraphExecutor.BlankValueMatchesNothing` | src/SmartKG.KGManagement/GraphSearch/GraphExecutor.cs:76-97 | a requested value of white space passes the argument check but matches nothing |
| `GraphExecutor.GetScenarioNames` | src/SmartKG.KGManagement/GraphSearch/GraphExecutor.cs:107-118 | null exactly for a null or empty name set; otherwise a duplicate-free list of exactly the set's names |
| `GraphExecutor.ConcatMembers` | src/SmartKG.KGManagement/GraphSearch/GraphExecutor.cs:130-134 | a config is in the aggregate exactly when some scenario lists it |
| `GraphExecutor.ColorsOf` | src/SmartKG.KGManagement/GraphSearch/GraphExecutor.cs:140-147 | an unknown scenario gives null; a known one gives that scenario's list |
| `GraphExecutor.GetColorConfigs` | src/SmartKG.KGManagement/GraphSearch/GraphExecutor.cs:120-149 | null for a null or empty map; for a blank scenario every list concatenated in key order, as long as all lists together; otherwise the named scenario's list or null |
| `GraphExecutor.GetVertexesAndEdgesByScenarios` | src/SmartKG.KGManagement/GraphSearch/GraphExecutor.cs:151-172 | both lists keep the length and order of the frame's lists, elementwise converted |
| `GraphExecutor.GetConnectedVertexesAndEdges` | src/SmartKG.KGManagement/GraphSearch/GraphExecutor.cs:228-273 | the nested loops with `cIdSet` return Connected |
| `GraphExecutor.ScanLinks` | src/SmartKG.KGManagement/GraphSearch/GraphExecutor.cs:241-268 | the inner foreach over one link's ids continues the scan state |
| `GraphExecutor.ScanFails` | src/SmartKG.KGManagement/GraphSearch/GraphExecutor.cs:243-258 | the scan throws exactly when a listed id is unknown; otherwise its seen set is exactly the listed ids |
| `GraphExecutor.ScanShape` | src/SmartKG.KGManagement/GraphSearch/GraphExecutor.cs:248-267 | as many vertices as edges as distinct ids; edges leave `vId` when `vIsSrc` and enter it otherwise |
| `GraphExecutor.ScanStepNeighbours` | src/SmartKG.KGManagement/GraphSearch/GraphExecutor.cs:243-267 | one id keeps the drawn neighbours distinct and equal to the seen ids |
| `GraphExecutor.ScanNeighbours` | src/SmartKG.KGManagement/GraphSearch/GraphExecutor.cs:237-268 | on a consistent frame the drawn vertices are distinct and are the store's vertices of the listed ids |
| `GraphExecutor.ScanFirstListing` | src/SmartKG.KGManagement/GraphSearch/GraphExecutor.cs:239-253 | each edge carries the relation type of the first link listing its neighbour |
| `GraphExecutor.ConnectedMeaning` | src/SmartKG.KGManagement/GraphSearch/GraphExecutor.cs:228-273 | it throws exactly on an unknown listed id. Otherwise it draws one vertex and one edge per distinct neighbour, oriented by direction; each vertex is the store's vertex and each edge's type comes from the first listing |
| `GraphExecutor.PropertyDrawing` | src/SmartKG.KGManagement/GraphSearch/GraphExecutor.cs:186-200 | one pseudo-vertex and one edge per property, edge from the vertex to the pseudo-vertex labelled by its display name |
| `GraphExecutor.GetFirstLevelRelationships` | src/SmartKG.KGManagement/GraphSearch/GraphExecutor.cs:174-226 | the method returns FirstLevel |
| `GraphExecutor.DrawProperties` | src/SmartKG.KGManagement/GraphSearch/GraphExecutor.cs:186-200 | the property loop returns PropertyDrawing: one generated pseudo-vertex per property, in order, each with an edge from the vertex labelled by its display name |
| `GraphExecutor.LinksShape` | src/SmartKG.KGManagement/GraphSearch/GraphExecutor.cs:205-223 | a null link dictionary contributes nothing; otherwise one oriented vertex and edge per distinct neighbour |
| `GraphExecutor.FirstLevelLayout` | src/SmartKG.KGManagement/GraphSearch/GraphExecutor.cs:183-225 | property pseudo-vertices first, then children with edges from `vId`, then parents with edges into `vId`, with equal list lengths |
| `GraphExecutor.FirstLevelOutcome` | src/SmartKG.KGManagement/GraphSearch/GraphExecutor.cs:176-181 | (null, null) exactly for an unknown id; an exception exactly when a listed child or parent id is unknown |
| `GraphExecutor.DrawnSomewhere` | src/SmartKG.KGManagement/GraphSearch/GraphExecutor.cs:209-221 | every listed neighbour is drawn in its section |
| `GraphExecutor.ChildAndParentDrawnTwice` | src/SmartKG.KGManagement/GraphSearch/GraphExecutor.cs:205-223 | a vertex that is both child and parent is drawn twice, once with an edge from `vId` and once with an edge into it |

## Left out

- Logging (`LogInformation`, `LogError`, the JSON serialisation inside log messages) is left out. It has no effect on results.
- The constructors, the `DataStoreManager` singleton and the lookup of a data store by name are left out. The stores are given as values.
- `GetMaxOptions`, `GetSortSetting` and `GetConfiguredSlots` are left out. They only forward NLU settings.
- The internals of the graph store, the NLU store, the data frame, `Vertex.GetPropertyValue` and `KGUtility.GeneratePropertyVVertex` are not part of this model. They are maps, sequences, function-valued fields or the `gen` parameter.
- Dictionaries built by the classes are `map`s, so their key order is not modelled. Dictionaries read by the classes keep their enumeration order.
- A `RelationLink` key is represented by its relation type only; the rest of the link is never read.
- A HashSet of relation types is a sequence in enumeration order. A repeated entry cannot occur in a HashSet, so `Dictionary.Add` throwing on a duplicate key is not modelled.
- Null elements inside lists and sets are not modelled: vertices, ids and color configs are never null. A null `vertex` argument to `GetChildren` is not modelled either.
- A null property list is modelled as an empty one.
- FilterGraphTraversal.FilterGraph: the model stops after `fuel` vertex expansions (`OutOfFuel`), where the source keeps running. It reports `Spins` where the source repeats the same vertex for ever.
- GraphExecutor.GetScenarioNames: the model does not fix the list's order, because the order in which the set is enumerated is left open.
- Atomic publication of a reloaded graph and all concurrency are left out.

## Findings

| source | as written | input that shows it | evidently intended | confidence | as-written member | corrected member |
|---|---|---|---|---|---|---|
| src/SmartKG.Common/DataStore/DataManager.cs:253 | a new relation-type bucket is created holding the vertex being expanded | Laptop with leaf children RAM and Warranty under "hasSpec" gives hasSpec → [Laptop, Warranty] | the bucket starts with the qualifying leaf: [RAM, Warranty] | not executed | `FilterGraphTraversal.Line253RecordsExpandedVertex` | `FilterGraphTraversal.FilterGraphVisited` |
| src/SmartKG.Common/DataStore/DataManager.cs:257-259 | every non-leaf child is queued, with no visited set | a vertex that lists itself as a child: the worklist grows by one on every expansion | each vertex is expanded once, so the traversal ends | not executed | `FilterGraphTraversal.CycleNeverReturns` | `FilterGraphTraversal.FilterGraphVisited` |
| src/SmartKG.Common/DataStore/DataManager.cs:233-234 | `continue` on a null child dictionary skips `index += 1` | a null relation-type set and a start vertex with no child dictionary in the scenario | the vertex is skipped and the loop moves on | not executed | `FilterGraphTraversal.NullChildMapSpins` | `FilterGraphTraversal.FilterGraphVisited` |
