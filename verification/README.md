# Associative memory: a verified model

`assoc/` is an associative memory over documents. Facts extracted from documents are folded into claims, claims
are merged and linked, indexed, spread over as a graph, selected into a prompt, and judged against standing needs.
This project models its algorithms and state machines in Dafny and proves what they keep and what they compute.

The model is executable code proved against specifications: loops stay loops, objects that update their fields stay
classes, and each method's contract ties its result to a specification whose own properties are proved as lemmas.
What comes from outside (the language model, the clock, embeddings, cosines, tokenizers, the text grammars) is an
unconstrained function parameter, so every theorem holds for every answer such a thing can give. Floats are reals, and a
hash is its preimage: a claim id is the hash value of text, facet and subject behind a constructor that says
whether it is a removal event; a document id is its key and version; a registered need is its text and scope.

| file | what it models |
|---|---|
| `common.dfy`, `grouping.dfy`, `vectors.dfy` | ordered collections, the stable sort, sums; lists of groups; sparse vectors |
| `unionfind.dfy` | the path-halving union-find, and that it computes the smallest equivalence |
| `fold.dfy`, `dedup.dfy`, `consolidate.dfy`, `remapping.dfy` | documents to claims, paraphrase pairs, merging in place, remapping of indexes and links |
| `graph.dfy`, `spread.dfy` | the typed edge table, bounded path search, spreading activation |
| `editdistance.dfy` | edit distance in two rows, the sound bridges and their prefilters |
| `senses.dfy`, `codebook.dfy` | word senses by leader and merge passes; term cells, soft assignment, drift |
| `authority.dfy` | document families, the damped two-sided ranking, rank normalization |
| `witness.dfy` | the worklist of chunk groups, anchoring and grounding, the fallback after a refusal |
| `relations.dfy` | the resumable relation pass and its cache |
| `selection.dfy` | gate, catalogue, picks, fast path, budget |
| `activation.dfy` | compressed access histories |
| `needs.dfy` | the verdict ledger, the search for resources, the needs state machine |
| `store.dfy` | version chains and the current version of a key |
| `sessions.dfy` | prefix-matched sessions |
| `builds.dfy` | staging, swap and pruning of builds under crashes |

## Main results

- Merging: from documents to the linked table, two claims end under one id exactly when merge verdicts connect them, no
  grounded fact is lost or doubled, every claim is the fold of its facts under the wording most documents use, the chunk
  index is exact, and two living claims contest exactly when some pair sets them against each other under their new names.
- Spread: everything recorded after any number of hops is a genuine simple walk that respects the path rules, with the
  hop count of a shortest one recorded, attenuated at every edge; the beam leaves out no node stronger than one it keeps.
- Ranking: a claim round moves exactly one unit of mass, keeps every score above its prior's share, a family's score
  depends only on what it states and grows strictly with it, and ranks are distinct and order-preserving.
- Witness: the worklist partitions the chunks in order at all times, ends within 2n - G rounds, a
  fact stays on the chunk it names unless only another grounds it, and a refusal keeps exactly the old facts of its chunks.
- State machines: every run of needs, stores, sessions, relation passes and builds keeps its invariant, crashes
  included for builds.

## Where the code does less than it says

- `last_h` (assoc/activation.py:122-123) takes a stored 0.0 for a missing value. It is the latest access if and only if that
  is not hour 0, or was the last touch made (`Activations.LatestUnlessZero`, `Activations.LatestLost`).
- Forking a chat that was not a pure append (assoc/store.py:193-212) does not look whether its stamp is taken. Chains
  stay distinct and linked if and only if it is not (`Stores.IngestKeepsChains`); a version a caller named can be in the
  way (`Stores.ForkCanRepeat`), one the clock named never is (`Stores.ClockStampsFree`).
- Growing a chat in place (assoc/store.py:165-191) does not write the key file, so taking back a removal that way is lost
  when the store is opened again: the file is current if and only if the key was not removed (`Stores.GrowthReopens`,
  `Stores.Store.IngestDocument`).
- With `max_picks` below 1 the first number is still picked if it is in range: replies keep to `max_picks` if and only if
  it is at least 1 (`Selection.PicksWithinMax`). The fast path never looks at it, and keeps to it on every listing if and
  only if it is at least 3 (`Selection.FastPathWithinMax`, `Selection.FastPathTakesThree`).
- The length prefilter drops no pair that the edit tests would accept (`EditDistance.PrefiltersAreSafe`). A pair that one of
  the three tests takes is dropped if and only if it is a rhyme of words more than three apart in length
  (`EditDistance.DroppedExactly`, `EditDistance.PrefilterDropsARhyme`).
- A block key is subject and facet around a separator. A block is one (subject, facet) if and only if neither holds it
  (`Deduplication.BlockKeyExact`, `Deduplication.BlockKeyCollides`).
- A build that is current when a rebuild begins is spared by it if and only if it loads (`Builds.PrunedIffUnloadable`,
  `Builds.UnloadableIsPruned`).
- When several cells tie for nearest, the soft assignment can list one twice and miss another. It lists what is meant if
  and only if the order begins with the first of them, or no cell is near enough to be listed beside it
  (`Codebooks.SoftFaithful`, `Codebooks.TiedCells`).

## Model

| member | source | states |
|---|---|---|
| `Common.StableSortStable` | assoc/spread.py:67 | sorting keeps elements of equal key in the order they came in |
| `Common.SortedCut` | assoc/spread.py:67 | the first n of a sorted list are as many as there are up to n, and nothing left out would come before them |
| `Common.FilterPlaces` | assoc/store.py:172 | what a filter leaves stands in the list in the same order and as often |
| `UnionFinds.UnionFind.Find` | assoc/dedup.py:77-82 | path halving ends, returns the representative of x, and changes no element's class; an unseen x becomes its own class |
| `UnionFinds.UnionFind.Union` | assoc/dedup.py:84-87 | the class of b is absorbed into that of a, whose root survives; no other class changes |
| `UnionFinds.UnionAll` | assoc/dedup.py:134-144 | after all unions the representatives are those of joining the links one after another |
| `UnionFinds.ClosureTheorem` | assoc/dedup.py:73-87 | two linked elements have one representative exactly when a chain of links connects them |
| `UnionFinds.ConnectedIsSmallest` | assoc/dedup.py:73-87 | being connected is an equivalence that contains the links, and any other such equivalence contains it |
| `UnionFinds.UnseenAlone` | assoc/dedup.py:153-155 | an element no link mentions is connected only to itself |
| `UnionFinds.HalvingKeepsForest` | assoc/dedup.py:79-81 | redirecting a pointer to the grandparent keeps every representative and still raises the rank, which is why the loop ends |
| `UnionFinds.LinkingKeepsForest` | assoc/dedup.py:85-87 | hanging one root under another merges exactly their two classes |
| `Folding.FoldClaims` | assoc/fold.py:27-86 | every claim is the fold of the events about it under its representative wording, and both indexes are exactly those of the events; every grounded fact of an extracted current document is an event, every other fact read is counted ungrounded |
| `Folding.AddEvent` | assoc/fold.py:50-72 | one grounded fact makes or widens its own claim, extends its chunk's and its subject's list, each at most once, and nothing else |
| `Folding.EventDescribes` | assoc/fold.py:41-61 | a fact joins the claim of its text, facet and subject, a need being its own facet; it is said where and when its document says it; a new claim takes wording, entities, kind and version from it |
| `Folding.ExtendedExactly` | assoc/fold.py:65-67 | a claim's entities grow by the new ones of the fact, each once, in the order they first come |
| `Folding.WidenExactly` | assoc/fold.py:63-67 | a fact adds its occurrence, its document's key and its new entities behind the claim's own, and nothing else |
| `Folding.BuiltFacts` | assoc/fold.py:57-66 | a folded claim has the facet, subject, kind and version of its first event, and the occurrences and sources of all its events |
| `Folding.ReWord` | assoc/fold.py:76-85 | the counting loops choose the wording `Choice` gives |
| `Folding.ChoiceIsBest` | assoc/fold.py:84 | the representative wording is one that is used, and none is used by more documents, nor by as many and asserted earlier |
| `Folding.FoldConserves` | assoc/fold.py:36-72 | the occurrences over all claims are, as a multiset, the grounded facts read |
| `Folding.EventsDistinct` | assoc/fold.py:36-56 | with distinct documents no two facts share an occurrence, so each is exactly one |
| `Deduplication.BlockKeyExact` | assoc/dedup.py:97 | a claim shares its block with no other (subject, facet) if and only if neither its subject nor its facet holds the separator |
| `Deduplication.BlockKeyCollides` | assoc/dedup.py:97 | with a separator in the subject, two different subjects share a block |
| `Deduplication.OrderedInOrder` | assoc/dedup.py:111 | the two ids of a pair come in order |
| `Deduplication.CloseExactly` | assoc/dedup.py:117-122 | two texts are close exactly when the product of their embeddings reaches the threshold's part of the product of their guarded lengths |
| `Deduplication.DotSnoc` | assoc/dedup.py:120 | the product of two embeddings adds up component by component |
| `Deduplication.PairUp` | assoc/dedup.py:109-115 | the double loop adds each wanted pair of the group once, in id order, and none that was seen |
| `Deduplication.GroupBy` | assoc/dedup.py:93-97 | grouping by a key: every key that occurs, each with its ids in order |
| `Deduplication.NominateBlock` | assoc/dedup.py:100-127 | within a block of two or more with a subject, both tiers nominate all the pairs they should and no others |
| `Deduplication.Nominate` | assoc/dedup.py:90-128 | the pairs are distinct, each nominated by its tier inside one block without removal events, and none is missed |
| `Deduplication.NominatedSymmetric` | assoc/dedup.py:102-127 | whether a pair is nominated does not depend on the order of its ids |
| `Deduplication.ResolvePairs` | assoc/dedup.py:131-159 | every pair is merged, contested, superseded or separate, in order, and the groups are the large classes of the merge verdicts |
| `Deduplication.VerdictExactly` | assoc/dedup.py:59-70 | opposite polarity contests, else two named versions supersede, else the claims merge exactly when conditions and argument order agree; among claims of one kind the verdict is symmetric |
| `Deduplication.JudgedExactly` | assoc/dedup.py:139-151 | the pairs listed under a verdict are exactly those judged so, a supersession running from the smaller version to the larger |
| `Deduplication.MergedAreClasses` | assoc/dedup.py:139-156 | two different claims share a group exactly when merge verdicts connect them |
| `Deduplication.GroupInOneBlock` | assoc/dedup.py:90-156 | a group is distinct claims of one block, its root among them, and no removal event |
| `Consolidation.ClaimTable.AbsorbMember` | assoc/dedup.py:184-195 | a member is popped and its root takes over its occurrences, sources, visibility and entities; no occurrence is lost |
| `Consolidation.AbsorbExactly` | assoc/dedup.py:187-195 | the root has whatever it or the absorbed claim had, notes whom it absorbed, and keeps all else |
| `Consolidation.RootHasAll` | assoc/dedup.py:184-195 | a merged root has exactly the sources, places to show and entities of all the members of its group |
| `Consolidation.ClaimTable.MergeGroup` | assoc/dedup.py:182-203 | one group is folded into its root, which is put under the wording all its occurrences prefer; its other members leave, every other claim is as before, no occurrence is lost |
| `Consolidation.ClaimTable.ApplyMerges` | assoc/dedup.py:179-204 | over all groups: occurrences conserved, dropped ids remapped to their surviving root, every other claim untouched |
| `Consolidation.PopConserves` | assoc/dedup.py:187-189 | moving one claim's occurrences to another that stays conserves the total |
| `Consolidation.GroupStep` | assoc/dedup.py:184-195 | what one more member does to table and remap, in both branches of the loop |
| `Consolidation.RootSurvives` | assoc/dedup.py:182-195 | merging one group never drops the root of another |
| `Remapping.RemapIndex` | assoc/rebuild.py:272-278 | every index list is renamed in place and stripped of doubles, keeping the first of each |
| `Remapping.FoldIndexExact` | assoc/fold.py:67-69 | the fold lists a claim under a chunk exactly when one of its occurrences names the chunk |
| `Remapping.SurvivorOccurrences` | assoc/dedup.py:187-195 | a survivor holds exactly the occurrences of the claims that were remapped to it, its own included |
| `Remapping.ChunkIndexExact` | assoc/rebuild.py:272-276 | after the remap a claim is listed under a chunk exactly when it is no removal event and an occurrence of it names the chunk |
| `Remapping.LivingLinksLive` | assoc/rebuild.py:279-285 | remapped links keep two different living ends |
| `Remapping.ContestsExact` | assoc/rebuild.py:279-290 | between living claims every contest is kept and none made up: one is listed with the other exactly when some pair joins them under their new names |
| `Remapping.SuccessorExact` | assoc/rebuild.py:282-291 | a living claim's successor is the one named by the last pair that makes another living claim follow it |
| `Remapping.LinkClaims` | assoc/rebuild.py:286-291 | clearing and appending gives every claim the opponents and the successor its links say |
| `Remapping.OpponentsSymmetric` | assoc/rebuild.py:288-290 | a contests b exactly as often as b contests a |
| `Remapping.LinksConsistent` | assoc/rebuild.py:286-291 | `contests` is symmetric, irreflexive and names living claims; `superseded_by` names another living claim |
| `Remapping.Supersession` | assoc/fold.py:100-135 | over the current documents in order: the removal event of each grounded fact of the superseded version whose hash the newer one lacks, in order, and no other |
| `Remapping.RemovedExactly` | assoc/fold.py:114-122 | a hash is among the removal events exactly when some grounded fact of the old version has it and none of the new one does |
| `Remapping.RemovedIffGone` | assoc/fold.py:100-122 | between documents of one kind that state no needs a fact is removed exactly when no grounded fact of the newer one folds into its claim |
| `Remapping.VersionsExactly` | assoc/fold.py:105-113 | a current document is compared, as the newer, with the one it supersedes when it is no growing chat and both have been extracted |
| `Remapping.RemovalDescribes` | assoc/fold.py:123-134 | a removal event is about the old fact's subject and entities, of the new document's kind and version and shown only there, with the old document's statement as its one occurrence |
| `Remapping.HashIsClaimId` | assoc/fold.py:114-120 | a fact that is no need is compared under the very hash the fold gives its claim |
| `Remapping.AddRemovals` | assoc/rebuild.py:214-223 | the table with each removal event entered under its own id or widening the one entered before; folded claims keep their occurrences, and all occurrences add up |
| `Remapping.WidenedExactly` | assoc/rebuild.py:214-223 | a removal seen again keeps its wording and has the occurrences, sources and places to show of both editions |
| `Remapping.AllShownExactly` | assoc/rebuild.py:224-225 | every claim keeps what it had, and one not shown anywhere is shown in exactly the documents that state it |
| `Remapping.MergeAndRemap` | assoc/rebuild.py:269-278 | the nominated pairs are judged, every class of merge verdicts merged into its root, both indexes renamed; all occurrences stay and the chunk index is exact |
| `Remapping.MergedExactly` | assoc/rebuild.py:269-271 | two different claims end up under one id if and only if merge verdicts connect them |
| `Remapping.DroppedLeadToSurvivors` | assoc/rebuild.py:271 | every id of the gathered table survives or is remapped to one that does, never both |
| `Remapping.Relink` | assoc/rebuild.py:279-291 | the living links are written, every one of them and no other: contests at both ends, the last successor of each claim; ids and occurrences stay, links are consistent, the index exact |
| `Remapping.RebuildClaims` | assoc/rebuild.py:212-291 | end to end, the table is the fold of the documents with the removal events, all classes of merge verdicts merged, indexes renamed; two living claims contest exactly when a verdict or a relation sets them against each other under their new names, and each names its last living successor; each grounded fact and removal occurrence is there once, the chunk index is exact, every id leads to a living claim |
| `Graph.EdgeTable.Add` | assoc/graph.py:47-53 | an accepted edge is appended at both ends and counted at both; a loop or an empty end changes nothing |
| `Graph.EdgeTable.FanOf` | assoc/graph.py:95-96 | the fan is the true degree of the node in that edge type, floored at one |
| `Graph.WeightEitherWay` | assoc/graph.py:58-59 | a learned weight is found from either end of its edge, and an edge without one counts in full |
| `Graph.AdjacencySymmetric` | assoc/graph.py:47-53 | every edge is recorded at both ends equally often |
| `Graph.AdjacencyLoopFree` | assoc/graph.py:47-49 | no node is its own neighbour |
| `Graph.RecordsEnd` | assoc/graph.py:50-53 | the fan counts stay the true degrees per edge type |
| `Graph.WalkWithinIffNextToBall` | assoc/infer.py:48-62 | a walk of 1 to k edges ends at b exactly when b is next to something within k - 1 edges |
| `Graph.BallSaturates` | assoc/infer.py:60-61 | once a level adds nothing no later level does |
| `Graph.HasPath` | assoc/infer.py:48-62 | true exactly when some walk of 1 to k edges leads from a to b, a = b included |
| `Spreading.ExpandNode` | assoc/spread.py:49-64 | the edges of one frontier node scatter exactly the arrivals the path rules and the floor allow |
| `Spreading.ExpandHop` | assoc/spread.py:45-64 | the two nested loops tally exactly the arrivals of the hop, in order of first arrival |
| `Spreading.Reached.Absorb` | assoc/spread.py:69-75 | the beam's nodes gain their mass, first hop and three strongest paths, and no other node changes |
| `Spreading.TrailIsSimpleWalk` | assoc/spread.py:49-64 | a recorded trail is a walk in the edge table from a seed that enters no node twice and uses only expandable edges |
| `Spreading.ArrivalAttenuates` | assoc/spread.py:58-61 | each arrival is at least the floor and strictly below its source |
| `Spreading.EmitExactly` | assoc/spread.py:48-64 | an edge carries its part of the source exactly when its type is expanded, it leads off the path, and the part reaches the floor |
| `Spreading.CarriesExactly` | assoc/spread.py:58-59 | the part is strength times weight times damping times fan penalty, or the ceiling if that is less |
| `Spreading.StrengthExactly` | assoc/spread.py:58 | the plain type's strength goes before the qualified one's, and a half stands in for both |
| `Spreading.HubsCarryLess` | assoc/spread.py:58-59 | over edges of one type and weight a node that the fan penalizes more passes on no larger a part |
| `Spreading.BeamKeepsStrongest` | assoc/spread.py:67-68 | after a hop each node of the beam holds exactly its arrived mass, and a node something arrived at is left out only when the beam is full of nodes with at least as much |
| `Spreading.PathsKeepStrongest` | assoc/spread.py:72-75 | of the old and the newly arrived paths of a node the three strongest are kept, and the next hop goes on from the strongest arrival |
| `Spreading.HopGains` | assoc/spread.py:69-71 | a node of the beam gains exactly the mass that arrived and keeps its first hop, no other node changes |
| `Spreading.HopKeepsInv` | assoc/spread.py:45-75 | one hop keeps: paths are trails from seeds within the hop bound, hops are those of a trail, shares are floors |
| `Spreading.SharesSumToOne` | assoc/spread.py:36-37 | the positive seeds are scaled to exactly one unit |
| `Spreading.SharesProportional` | assoc/spread.py:36-37 | exactly the positive seeds take part, each with its own part of their total |
| `Spreading.SpreadSound` | assoc/spread.py:33-76 | after k hops, for every node reached: its hop count is the length of some trail and no recorded path is shorter, its one to three paths are trails of at most k edges, strongest first, and its activation is at least its seed share |
| `Spreading.EarlyStopHarmless` | assoc/spread.py:65-66 | stopping as soon as nothing arrives leaves the same result as running all k hops |
| `Spreading.Spread` | assoc/spread.py:33-76 | the scattering loops return exactly the gathered run of hops, of which each keeps the beam `BeamKeepsStrongest` and the paths `PathsKeepStrongest` describe, and which `SpreadSound` is about |
| `Spreading.BeamFromTally` | assoc/spread.py:67-68 | the beam cut from the dictionaries is the beam of all arrivals |
| `EditDistance.Edit` | assoc/senses.py:165-172 | the two-row loop computes the recursive edit distance |
| `EditDistance.NextRow` | assoc/senses.py:168-170 | one row of distances gives the next |
| `EditDistance.DistanceSymmetric` | assoc/senses.py:165-172 | the distance is symmetric |
| `EditDistance.DistanceTriangle` | assoc/senses.py:165-172 | the distance obeys the triangle inequality |
| `EditDistance.DistanceAtLeastLengthGap` | assoc/senses.py:165-172 | the distance is at least the difference of the lengths |
| `EditDistance.DistanceZero` | assoc/senses.py:165-172 | the distance is zero exactly for equal words |
| `EditDistance.NoShorterChain` | assoc/senses.py:165-172 | no chain of single edits is shorter than the distance |
| `EditDistance.ShortestChain` | assoc/senses.py:165-172 | and some chain of single edits is exactly that long |
| `EditDistance.Classify` | assoc/senses.py:190-215 | a candidate becomes a bridge exactly when one of the three tests accepts it, with that test's strength |
| `EditDistance.AcceptedExactly` | assoc/senses.py:190-215 | letter by letter: another word of five letters or more, of the same script with another stem and no common lemma, that ends alike and is at most three letters longer or shorter, or does not end alike and is within two edits; or of the other script, within two edits once spelled in Latin |
| `EditDistance.SoundBridges` | assoc/senses.py:175-216 | the bridges are exactly the accepted candidates, strongest first |
| `EditDistance.PrefiltersAreSafe` | assoc/senses.py:195-212 | a pair an edit test accepts always passes its length prefilter |
| `EditDistance.DroppedExactly` | assoc/senses.py:190-215 | a pair that one of the three tests takes yields no bridge if and only if it is a rhyme of words more than three apart in length |
| `EditDistance.PrefilterDropsARhyme` | assoc/senses.py:195-204 | a rhyming pair of very different length is dropped by the same prefilter |
| `Vectors.AddInto` | assoc/senses.py:56-58 | the in-place add computes the vector sum |
| `Vectors.TotalAt` | assoc/senses.py:56-58 | in each cell a running sum is the sum of the members' weights |
| `Vectors.TotalConcat` | assoc/senses.py:113 | adding the sum of one cluster to another's sums both |
| `Senses.FindNearest` | assoc/senses.py:88-92 | the scan finds the first cluster of greatest similarity |
| `Senses.LeaderPass` | assoc/senses.py:86-97 | after every placement the contexts are partitioned into non-empty clusters whose sums are their members' sums; each context joins its nearest cluster at the threshold or leads |
| `Senses.PlacedExactly` | assoc/senses.py:88-98 | a context leads a cluster exactly when none is within the threshold, otherwise it joins the first of those most similar to it |
| `Senses.FindPair` | assoc/senses.py:103-108 | the scan finds the last pair of greatest similarity at or above the threshold |
| `Senses.MergePass` | assoc/senses.py:98-115 | the pass ends, each merge pouring together the last closest pair, keeps the partition and the sums, and leaves no two clusters within the threshold |
| `Senses.SensesFollow` | assoc/senses.py:116-133 | what remains is a list of senses: at least two, largest first, disjoint, each of two or more contexts, pairwise apart |
| `Senses.KeptExactly` | assoc/senses.py:116-118 | two clusters are left exactly when two hold two contexts or more, and no such cluster is lost |
| `Senses.InduceSenses` | assoc/senses.py:77-133 | the clusters are those of the leader pass and the merge pass; a word has senses exactly when it has enough contexts and two large enough clusters, and they are those, largest first |
| `Codebooks.LedHolds` | assoc/codebook.py:81-107 | leader clustering files every term once into non-empty cells whose sums are their members' unit vectors |
| `Codebooks.Soft` | assoc/codebook.py:114-123 | the nearest cell in full, then exactly the near enough ones among the second to fourth of the order, discounted |
| `Codebooks.SoftFaithful` | assoc/codebook.py:114-123 | every other near enough cell of the first four is listed, and the nearest not again, if and only if the order begins with the first of the nearest cells or no cell is near enough to stand beside it |
| `Codebooks.NearestTwice` | assoc/codebook.py:117-122 | the nearest cell is listed again exactly when it is near enough and stands second to fourth in the order; then the first of the order is missed |
| `Codebooks.TiedCells` | assoc/codebook.py:117-122 | an input where it happens: two cells equally near, put in the other order |
| `Codebooks.Codebook.Cluster` | assoc/codebook.py:81-112 | the cells hold exactly the terms, and each term is in exactly one cell if and only if no term is given twice; drift restarts |
| `Codebooks.FiledOnceExactly` | assoc/codebook.py:81-107 | clustered cells partition the terms exactly when the terms are distinct |
| `Codebooks.Codebook.FileNew` | assoc/codebook.py:132-142 | a new term goes to its nearest cell, and the drift counts it as forced when that is too far |
| `Codebooks.Codebook.AssignNew` | assoc/codebook.py:125-145 | each cell gains exactly the new terms nearest to it, old assignments and centroids stay, drift counts what was filed and forced, and a partition stays one |
| `Codebooks.DoubledExactly` | assoc/codebook.py:144-145 | the drift counts exactly the cells of six terms or more that at least doubled since the last clustering |
| `Authority.FamilyLinks` | assoc/authority.py:48-70 | the links are exactly same-key neighbours and near-duplicate pairs |
| `Authority.KeyLinks` | assoc/authority.py:48-53 | chaining to the first document of a key connects all documents of the key, by links between documents of one key only |
| `Authority.NearExactly` | assoc/authority.py:57-70 | two texts are near-duplicates exactly when they share a shingle and the shared ones make up the given part of all; either way round |
| `Authority.Families` | assoc/authority.py:32-71 | two documents share a family exactly when same-key and near-duplicate links connect them |
| `Authority.FamiliesAreTheClosure` | assoc/authority.py:32-71 | families are the smallest equivalence containing same-key and near-duplicate pairs |
| `Authority.CollectVotes` | assoc/authority.py:77-87 | claims and families see each other exactly through the occurrences, each pair once; a family's kind is that of the first document seen of it |
| `Authority.IndependentExactly` | assoc/authority.py:118 | a claim has as many independent statements as families vote for it |
| `Authority.PriorsExactly` | assoc/authority.py:22-92 | a family's prior is that of its kind, a claim's that of the kind of its document, by the source's table |
| `Authority.ClaimMassIsOne` | assoc/authority.py:104-107 | before renormalizing the claim scores sum to exactly 1 |
| `Authority.ClaimFloor` | assoc/authority.py:106-107 | a claim's score is at least (1 - beta) times its prior |
| `Authority.ClaimLocal` | assoc/authority.py:105-107 | only the families that state a claim matter to its score |
| `Authority.SharesEqual` | assoc/authority.py:106 | a family shares its score out equally over the claims it states |
| `Authority.MoreFamiliesScoreHigher` | assoc/authority.py:105-107 | between claims of equal prior the one stated by all the other's families and one of positive score besides scores strictly higher |
| `Authority.FamilyLocal` | assoc/authority.py:110-112 | only the claims a family states matter to its score |
| `Authority.FamiliesDoubleCounted` | assoc/authority.py:109-112 | beyond the damped priors the family scores add up to what the claims give, each its weighted score to every family that states it |
| `Authority.MoreClaimsScoreHigher` | assoc/authority.py:110-112 | between families of equal prior the one that states all the other does and a claim of positive weight besides scores strictly higher |
| `Authority.FamiliesPositive` | assoc/authority.py:109-113 | the family scores stay a strictly positive distribution |
| `Authority.ScoreClaims` | assoc/authority.py:104-107 | the loop computes every claim's blended score |
| `Authority.IterationBalanced` | assoc/authority.py:103-113 | one round keeps both score tables distributions and every claim above its floor |
| `Authority.RoundClaims` | assoc/authority.py:103-108 | the claim scores of a round are exactly what the families before it give, renormalizing them changes nothing |
| `Authority.RoundFamilies` | assoc/authority.py:109-113 | any two family scores of a round stand in the proportion of what the new claim scores give them |
| `Authority.RoundsBalanced` | assoc/authority.py:99-113 | after any number of rounds both tables are distributions, and from the first on every claim is at least (1 - beta) times its prior |
| `Authority.Iterate` | assoc/authority.py:99-113 | the loop computes exactly the tables after that many rounds |
| `Authority.RankNormalize` | assoc/authority.py:115-117 | ranks are the places in the stable order by score, over the last place |
| `Authority.RanksSound` | assoc/authority.py:115-117 | ranks are distinct, within [0, 1], and never invert two different scores |
| `Authority.Authorities` | assoc/authority.py:74-120 | family scores, ranks, independent counts and family kinds are those of the final round over the votes the occurrences make; all zeros when nothing votes |
| `Witnessing.Groups` | assoc/witness.py:70-84 | the groups are an in-order partition into non-empty groups, each a single chunk or within the window, and none closed before the next chunk would not have fitted |
| `Witnessing.SplitKeepsPartition` | assoc/witness.py:203-207 | halving a group in place keeps the in-order partition and adds one group |
| `Witnessing.HalvesEven` | assoc/witness.py:204-205 | the two halves differ by at most one chunk, the second being the larger |
| `Witnessing.EarlierPrecedes` | assoc/witness.py:70-84 | everything in an earlier group precedes everything in a later one |
| `Witnessing.BestUnit` | assoc/witness.py:129-133 | the scan finds the first chunk of greatest overlap |
| `Witnessing.AnchorAndGround` | assoc/witness.py:107-169 | every fact is anchored as `NamedStays`, `NamedMoves` and `UnnamedInferred` say, in order, and counted by how |
| `Witnessing.NamedStays` | assoc/witness.py:128-157 | a fact that names a chunk of its group sits on that chunk, exactly, if that chunk grounds it or none of the group does |
| `Witnessing.NamedMoves` | assoc/witness.py:128-157 | if the chunk it names does not ground it and another of the group does, it is moved to the first chunk of greatest overlap |
| `Witnessing.UnnamedInferred` | assoc/witness.py:128-137 | a fact that names no chunk of its group is inferred to sit on the first chunk of greatest overlap |
| `Witnessing.CountedExactly` | assoc/witness.py:134-163 | each count is the number of facts of its kind |
| `Witnessing.AnchoredInGroup` | assoc/witness.py:124-157 | an anchored fact sits in its own group and is grounded exactly when some chunk of the group grounds it |
| `Witnessing.Settle` | assoc/witness.py:208-251 | a group that is not split is failed, refused with its chunks reported, or answered and anchored, as the model's verdict says |
| `Witnessing.VerdictExactly` | assoc/witness.py:192-241 | an ask is broken, answered, answered at the second try with the thought open, or refused, exactly under the source's conditions |
| `Witnessing.TreatGroup` | assoc/witness.py:184-251 | one round asks about the group at hand with its context, splits it or settles it and moves on, and keeps all the books |
| `Witnessing.LlmWitness` | assoc/witness.py:172-255 | the loop is a run of rounds from groups the window cuts to the end of the worklist, each splitting its broken group in place or settling it as the answer says; rounds = retried + failed + refused + answered, with the facts and report they lead to |
| `Witnessing.AlwaysPartition` | assoc/witness.py:182-255 | in every round of every run the worklist is an in-order partition into non-empty groups, one outcome stands for each group behind, and the context is the last chunk of the nearest earlier group that did not fail |
| `Witnessing.RoundsBounded` | assoc/witness.py:183-255 | from G groups over n chunks there are at most 2n - G rounds |
| `Witnessing.ContextPrecedes` | assoc/witness.py:187 | the context chunk of every ask precedes every chunk asked about |
| `Witnessing.ContextGroup` | assoc/witness.py:181-253 | it is the last chunk of a group that did not fail, after which all have failed |
| `Witnessing.RefusedExactly` | assoc/witness.py:230-240 | the chunks reported refused are exactly those of refused groups |
| `Witnessing.FallbackFacts` | assoc/witness.py:351-363 | per refused chunk exactly the old facts, in order, marked with their witness; nothing else |
| `Witnessing.MarkedExactly` | assoc/witness.py:360-362 | a fact taken over changes only in that it names the witness it came from |
| `Witnessing.ModelFactsAvoidRefused` | assoc/witness.py:230-240 | no model fact sits on a chunk of a refused group |
| `Witnessing.RunLlmWitness` | assoc/witness.py:305-318 | the LLM part of the protocol is, per refused chunk, what was on record, and otherwise only what the model said |
| `Relations.Parse` | assoc/relations.py:85-118 | every line is accepted, or counted under one reason |
| `Relations.AcceptedExactly` | assoc/relations.py:94-114 | a line is accepted exactly when it numbers a claim, its predicate is known, its subject is in that claim's bracket or the subject's own name, and its object in the bracket or has a cell |
| `Relations.RelationReads` | assoc/relations.py:103-116 | the relation is the line's predicate, the claim's own node where the line names it, and the object as written or its cell |
| `Relations.RelsRead` | assoc/relations.py:85-118 | a claim gets the relation of its last acceptable line, with a known predicate and arguments of its own, and no other relation |
| `Relations.RelsWithinBatch` | assoc/relations.py:97-116 | only claims of the batch get a relation |
| `Relations.AskBatch` | assoc/relations.py:173-200 | a batch fails, is refused after the thinking retry, or is answered as read |
| `Relations.CachedAsRead` | assoc/relations.py:173-208 | what stays cached for an answered claim is the relation of its last acceptable line in the reply, or none if it has no such line |
| `Relations.RelationCache.Put` | assoc/relations.py:132-133 | one entry is written |
| `Relations.FatesAddUp` | assoc/relations.py:151-181 | cached + sent + deferred is the number of claims that had no relation |
| `Relations.ScanDocument` | assoc/relations.py:153-163 | held relations are skipped, cache hits put on their claims, and exactly the open claims left to do |
| `Relations.TellAllKeeps` | assoc/relations.py:204-208 | recording an answer caches every claim of the batch as it was read and touches no other |
| `Relations.MarkKeeps` | assoc/relations.py:181-200 | a failed, refused or deferred batch leaves no trace in the cache or on its claims |
| `Relations.SendDocument` | assoc/relations.py:170-208 | batches are sent until the limit is reached, the rest deferred, and nothing is deferred before |
| `Relations.RunRelationPass` | assoc/relations.py:140-210 | every claim without a relation is a hit, sent or deferred; fewer than limit + max_claims are sent, none with limit 0, and none deferred before the limit is reached; answered claims are cached as read, unanswered ones not |
| `Relations.NeverAskedAgain` | assoc/relations.py:140-210 | over any run of such passes under one prompt version an answered claim is never sent again |
| `Selection.Gate` | assoc/selection.py:90-123 | exactly the hits that pass the policy go on, per grain and in order; the others are counted by reason |
| `Selection.WithheldExactly` | assoc/selection.py:47-55 | a claim is withheld for its subject first, then for its facet, because the policy withholds it or does not name it |
| `Selection.PassesExactly` | assoc/selection.py:98-119 | a passage passes when its kind may be quoted, its document is not withheld, and some claim anchored to it, if any are, is eligible |
| `Selection.QuotaKeepsBest` | assoc/selection.py:123-126 | the quota leaves out no claim better corroborated than one it keeps |
| `Selection.BuildCatalogue` | assoc/selection.py:88-152 | the entries are numbered 1..n and list the gated, quota-cut hits, claims nested under their passage; what is withheld is counted by reason |
| `Selection.CatalogueIsPermutation` | assoc/selection.py:129-152 | the catalogue is a permutation of the gated, quota-cut hits if and only if no chunk with nested claims is listed as a passage twice |
| `Selection.DistinctHitsPermuted` | assoc/selection.py:129-152 | for distinct hits, a passage's chunk being its id, the catalogue is a permutation of the gated, quota-cut hits |
| `Selection.DistinctPassages` | assoc/selection.py:129-152 | in particular for passages of different chunks |
| `Selection.ListedPasses` | assoc/selection.py:88-152 | nothing is listed that is not a hit or that the gate withholds |
| `Selection.ParsePicks` | assoc/selection.py:225-248 | for max_picks >= 1 the picks are exactly the first that many distinct numbers in range; otherwise the first number given, if it is in range |
| `Selection.PicksWithinMax` | assoc/selection.py:233-247 | every reply keeps to max_picks if and only if it is at least 1 |
| `Selection.NamedExactly` | assoc/selection.py:233-246 | the numbers named are those in range that some line gives, each once |
| `Selection.ReasonExactly` | assoc/selection.py:246-248 | nothing counts as picked on purpose exactly when the answer says so or gives no number; otherwise the parse failed exactly when no number given is in range |
| `Selection.FastPathPick` | assoc/selection.py:251-268 | the short cut is taken exactly when a strong exact top hit leads every rival by the margin, although only the first rival is looked at |
| `Selection.UncontestedExactly` | assoc/selection.py:265-267 | only exact hits that are another thing contest the top hit: it leads each of them by the margin, or zero if there is none |
| `Selection.SameThingExactly` | assoc/selection.py:271-285 | two hits are one thing exactly when they share chunk or subject, or one is a passage with a claim about the other's subject; either way round |
| `Selection.SharesFit` | assoc/budget.py:31-32 | shares that are not negative and add up to at most 1 truncate to amounts that fit the total |
| `Selection.ShareIsPart` | assoc/budget.py:31-32 | a grain's share is its part of the total cut to whole tokens |
| `Selection.Spend` | assoc/selection.py:292-325 | hits are rendered in order while they fit; each grain's spend is what its rendered hits cost and within its share; a skipped hit would not fit even at the end |
| `Selection.SpendWithinTotal` | assoc/budget.py:27-32 | with shares that add up to at most 1 the block is within the total |
| `Selection.Choose` | assoc/selection.py:350-380 | exactly under the fast path's condition its top hit and up to two companions, else exactly what the reply picks, with the reason that follows |
| `Selection.FastChosenExactly` | assoc/selection.py:358-359 | the fast path takes its top hit first and up to two other hits that are the same thing, all of them if there are no more |
| `Selection.NumbersExactly` | assoc/selection.py:360 | the picks reported for it are the numbers of exactly the entries whose hits are taken |
| `Selection.ChoiceBounded` | assoc/selection.py:350-380 | on both paths what is chosen is listed, picks are entry numbers, at most three on the fast path and max(1, max_picks) on the model's |
| `Selection.FastPathWithinMax` | assoc/selection.py:358-360 | the fast path keeps to max_picks on every listing if and only if three picks are allowed |
| `Selection.FastPathTakesThree` | assoc/selection.py:354-361 | an input where three are taken whatever max_picks is: three hits on one chunk |
| `Selection.SelectAndRender` | assoc/selection.py:339-392 | the block is what catalogue, choice and budget make of the hits; on both paths every rendered hit is a hit that passed the gate |
| `Activations.SuffixInsert` | assoc/activation.py:113-117 | sorting a time into the latest n and cutting gives the latest n of the whole history |
| `Activations.TouchAbstracts` | assoc/activation.py:106-121 | a touch, backdated or not, keeps a row the abstraction of its full history: the twenty latest in order, the number of the rest, the first |
| `Activations.OrderDoesNotMatter` | assoc/activation.py:106-121 | the same touches in any order leave the same row, `last_h` apart |
| `Activations.ShortHistoryExact` | assoc/activation.py:44-60 | up to twenty accesses the odds of the row are the sum over the full history |
| `Activations.OddsFromAccesses` | assoc/activation.py:44-60 | the odds are the kept accesses one by one plus the spread tail |
| `Activations.AgeExactly` | assoc/activation.py:51 | an access is as old as it is, but never less than a minute |
| `Activations.TailExactly` | assoc/activation.py:53-59 | the older accesses count as many times what one does on average between the first and the oldest kept, or at the first |
| `Activations.TailBounded` | assoc/activation.py:53-59 | where that average lies between its ends, so does the tail |
| `Activations.LatestUnlessZero` | assoc/activation.py:122-123 | `last_h` is the latest access if and only if that is not hour 0, or was the last touch |
| `Activations.LatestLost` | assoc/activation.py:122-123 | a history on which `last_h` is wrong |
| `Activations.Revise` | assoc/activation.py:105-123 | one access of an existing row computes the new row |
| `Activations.Activation.Touch` | assoc/activation.py:92-124 | every row of every layer stays the abstraction of exactly the touches it is about |
| `Activations.Activation.Accesses` | assoc/activation.py:148-152 | the count is the number of touches made in the layer |
| `Activations.GlobalCountsAll` | assoc/activation.py:97-104 | the global row counts every touch of the node, whatever its scope |
| `Needs.Blocked` | assoc/aha.py:69-76 | blocked exactly when the triple has a verdict or the pair a settling one |
| `Needs.CheckInferred` | assoc/aha.py:87-89 | true exactly when there are edges and all are inferred |
| `Needs.Consider` | assoc/aha.py:142-170 | a node yields a candidate exactly when it is a new, near, strong enough resource the ledger does not bar |
| `Needs.YieldsExactly` | assoc/aha.py:142-170 | a candidate in plain terms: its strength is that of the weaker side, its types those of its paths, and no verdict on it is on record |
| `Needs.FindCandidates` | assoc/aha.py:133-174 | the search lists exactly those candidates, one per need and resource, strongest first, none of them barred |
| `Needs.StandingNeeds` | assoc/library.py:238-256 | no need stands twice and no closed one stands |
| `Needs.StandsExactly` | assoc/library.py:238-256 | a need stands exactly when it is not closed and its claim is in sight, or it is registered in a scope that does not differ |
| `Needs.SidesExact` | assoc/library.py:331-342 | a standing need takes part in a search exactly when it has a claim, or a text with anchors or a subject; each once |
| `Needs.Unique` | assoc/library.py:345-353 | the strongest candidate of each resource in sight, the six strongest of them |
| `Needs.Library.RegisterNeed` | assoc/library.py:258-267 | registering again changes nothing |
| `Needs.Library.CloseNeed` | assoc/library.py:269-272 | one closure is appended |
| `Needs.Library.Aha` | assoc/library.py:305-353 | a search offers nothing for a closed need and nothing barred, the strongest first, one candidate a resource; every resource in sight that some standing need yields is offered, unless six at least as strong are |
| `Needs.Library.JudgeCandidate` | assoc/library.py:435-450 | an unparseable judgement changes nothing; a verdict is recorded, and a settling one closes the need |
| `Needs.ClosedForGood` | assoc/library.py:223-272 | over any run a closed need never stands again and no search offers anything for it, though it be registered anew |
| `Needs.JudgedForGood` | assoc/aha.py:69-84 | over any run a judged triple is never offered again, nor anything for a need after a settling verdict |
| `Needs.PendingExactly` | assoc/aha.py:248-268 | what waits for a verdict is what the last search found and nobody judged since |
| `Needs.KeysStayUnique` | assoc/aha.py:248-268 | when each found candidate is judged at most once before the next search, no ledger key repeats |
| `Stores.Store.IngestDocument` | assoc/store.py:116-163 | fresh ingest, re-ingest in place, append and fork, each with its exact new state; chains stay sound exactly when no fork takes a used stamp; the key file stays current exactly unless a removed key grows in place |
| `Stores.Store.AppendTo` | assoc/store.py:165-191 | a pure append grows the document in place without writing the key file, anything else becomes a new version and writes it |
| `Stores.Store.RemoveKey` | assoc/store.py:285-290 | the key is marked removed, the key file written, and nothing else changes |
| `Stores.IngestKeepsChains` | assoc/store.py:116-212 | every chain stays distinct with each version superseding exactly the one before it, if and only if the ingest does not fork under a stamp the chain has |
| `Stores.ClockStampsFree` | assoc/store.py:134-136 | where callers name no version no fork takes a used stamp, even under a stopped clock |
| `Stores.DecimalReadsBack` | assoc/store.py:135 | the chain's length stands in its stamp as a decimal number that reads back |
| `Stores.ClockNamesStay` | assoc/store.py:116-212 | an ingest that names no version keeps all versions clock-named, and the chains sound |
| `Stores.GrowthReopens` | assoc/store.py:128-132 | growing in place changes the key's entry exactly when the key was removed |
| `Stores.ForkCanRepeat` | assoc/store.py:177-211 | a first version named by a caller the way the clock will name the second: the fork repeats it |
| `Stores.AppendKeepsPrefix` | assoc/store.py:165-191 | growth in place keeps every earlier chunk in its place and adds exactly the given chunks that were not there, in order; no chunk of the new text is missing; no version is added |
| `Stores.GrowthRecognized` | assoc/store.py:174 | text that goes on where the stored text ends is recognized as growth, with or without its last line break |
| `Stores.GrowthExactly` | assoc/store.py:174 | growth is recognized exactly when the text begins with what is stored, trailing line breaks apart |
| `Stores.IngestStores` | assoc/store.py:116-212 | in every case the stored text is the request's; but for growth in place so are chunks, facets and version |
| `Stores.TrimmedExactly` | assoc/store.py:174 | the append test ignores exactly the trailing line breaks of what is stored |
| `Stores.IngestIsLocal` | assoc/store.py:116-163 | an ingest changes one key and one document, and only extends the chain |
| `Stores.RunKeepsChains` | assoc/store.py:116-290 | with fresh stamps every interleaving of ingests and removals keeps all chains distinct and linked, and never loses or reorders a version |
| `Stores.RunSteps` | assoc/store.py:116-290 | a run takes its ingests and removals one after another, in order |
| `Stores.FacetsMatch` | assoc/store.py:315-327 | true exactly when every named facet the document has agrees |
| `Stores.FacetExactly` | assoc/store.py:315-327 | a facet the document does not name fits, a single value must be the one asked for, several must contain it |
| `Stores.Store.CurrentDocIds` | assoc/store.py:293-312 | for each key that is not removed exactly its last fitting version, if any |
| `SessionTable.Sessions.Resolve` | assoc/facade.py:47-58 | the session whose stored log is the longest non-empty prefix, else a fresh one; its log becomes the request; logs stay different |
| `SessionTable.OnlyTurnsCount` | assoc/facade.py:48 | each message of the user or the assistant is one more turn, and any other changes nothing |
| `SessionTable.RunKeepsDiffer` | assoc/facade.py:47-58 | over any sequence of requests no two sessions hold the same non-empty log |
| `SessionTable.RepeatingStays` | assoc/facade.py:47-58 | repeating a non-empty request gives the same session |
| `SessionTable.ExtendingStays` | assoc/facade.py:47-58 | extending a session's request gives that session exactly when no other holds a longer part of it |
| `Builds.StepKeepsInv` | assoc/rebuild.py:365-373 | every step, a crash included, keeps `current` absent or on a whole build |
| `Builds.CurrentIsWhole` | assoc/rebuild.py:365-373 | so in every state of every run |
| `Builds.ReaderSurvivesOneSwap` | assoc/rebuild.py:365-373 | a reader that took the name in `current` can load its build until a second swap |
| `Builds.ReaderStarts` | assoc/rebuild.py:79-90 | whoever is given a build, at whatever point of a rebuild, has that guarantee |
| `Builds.LoggedReader` | assoc/rebuild.py:365-373 | over the log of the directory: a build given at any point is whole until a second swap |
| `Builds.PrunedIffUnloadable` | assoc/rebuild.py:158-373 | after the swap the build that was current when the rebuild began may be pruned if and only if it did not load |
| `Builds.UnloadableIsPruned` | assoc/rebuild.py:470-473 | a rebuild that begins on a current, whole build that does not load, and removes it |
| `Builds.Index.ReadCurrent` | assoc/rebuild.py:79-90 | a build is given exactly when `current` names a whole one that loads |
| `Builds.Index.Prune` | assoc/rebuild.py:470-473 | the new and the previous build stay as they are, nothing is added, and with budget enough nothing else is left; cut off anywhere, `current` is sound |
| `Builds.Index.Rebuild` | assoc/rebuild.py:150-373 | a rebuild cut off after any number of steps leaves `current` on the old build or the new, and the build a reader was given before whole; one not cut off leaves only those two |

Documentation and code: where they differ the model follows the code, as listed above.

## Left out

- `server/`, `client/`, the HTTP handler, directory import and all drawing of prompts: plumbing around models and screens.
- Files, JSON and sqlite: rows, maps and directory names are state, `os.replace` is one step, and a needs file that
  cannot be read (which the code takes for an empty one) is not modelled.
- Regular grammars, lemmatizers, tokenizers, embedders, cosine, logarithm and power: function parameters.
- Floating-point rounding and `round()`: the model is over the reals.
- Subject aliases (assoc/rebuild.py:445-462) and the counts derived from a claim's sets: the alias step is not part of this
  model.
- `rel_contests` (assoc/dedup.py:162-176): any function from the merged table to pairs, in `Remapping.RebuildClaims`.
- The subject index after the remap is renamed and deduplicated (`Remapping.RemapIndex`); only the chunk index is
  proved exact end to end.
- `EdgeTable.learn_strength` and `build_edges`: weights are any numbers the table holds.
- The codebook's postings, search, neighbours and alias proposals, and the senses' jumps: scoring over abstract terms.
- `stamp_fits` and the fitting of tokens per character: their contracts would repeat their bodies.
- Variable decay (`variable_d`), which is off by default, and how near the spread tail comes to the true sum.
- `fill_candidate`, `need_seeds` and the pivots: they attach text or choose seeds; a search takes any seeds' reach.
- The ledger's key string is modelled as its three parts; ids that contain its separators are not told apart by the code.
- Which hits the pullers rank, and the second claim a contest line prints.
- Concurrency beyond one writer and crashes: locks make each call one step.
- Senses.InduceSenses: takes the contexts' signatures and a symmetric similarity as given.
- Needs.Library.Aha: takes the spread from needs and stimulus as given; `spread.dfy` is what they satisfy.
