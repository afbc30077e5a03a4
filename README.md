# ACS research mentor: a verified model of its causal, routing, lifecycle, literature and memory core

The ACS research mentor helps clinical researchers design and analyse studies. Five of its
parts hold its logic, and this project models them in Dafny:

- **The causal DAG advisor** (`causal/dag_advisor.py`). It holds a causal graph whose nodes
  are typed variables (exposure, outcome, confounder, mediator, collider, instrument). Its
  main operations are:
  - building such a graph from pre-collected inputs;
  - searching for "backdoor" paths, which is the confounder pattern `exposure <- c -> outcome`;
  - reading off the minimal adjustment set and a collider warning;
  - computing the E-value of an observed risk ratio (how strong an unmeasured confounder
    would have to be to explain the effect away) and its robustness tier;
  - recommending an identification strategy;
  - writing the graph as GraphViz DOT.
- **The coordinator** (`agents/coordinator.py`). This is the "queen" agent. It routes a
  query by keywords to one or more specialists. It loads specialist instances lazily into a
  cache. It consults them singly, in sequence (each sees the earlier outputs through a shared
  context dictionary) or in parallel, and synthesises their answers.
- **The research lifecycle manager** (`lifecycle/research_lifecycle.py`). This is a table of
  research projects. Five phase operations each update a project's fields, mark a named
  milestone and move the project's phase. A progress summary reports completed milestones and
  a percentage.
- **The literature helpers** (`knowledge/llamaindex_integration.py`). They cover:
  - deduplicating search results by DOI and title;
  - APA-style citations;
  - metadata filters (membership, range and equality);
  - extracting a research topic and a key finding from text.
- **The memory layer** (`memory/mem0_integration.py`). It is a Mem0 store with a SQLite
  fallback. After a configured number of backend failures it stops using Mem0. Its helpers
  sort search hits into history, success cases and recurring errors, count recurring errors,
  rank a user's most common error types, and find the last interaction time.

## Layout

| file | module | models |
|---|---|---|
| `common.dfy` | `Common` | `Option`, `Result`, the Python exceptions as `Error`, and sequence helpers (`Take` is `xs[:n]`, `Select` is a filtering comprehension, `MapAll` is a loop that raises at the first bad element) |
| `text.dfy` | `Text` | Python's `lower`, `in` on strings, `join`, `split(sep)`, `split()`, `strip`, string ordering and `str(int)` |
| `causal_graph.dfy` | `CausalGraph` | `DAGNode`, `DAGEdge` and the `CausalDAG` class with its look-ups, its backdoor search and its DOT writer |
| `causal_advisor.dfy` | `CausalAdvisor` | the `DAGAdvisor` class: graph construction, adjustment sets and strategy |
| `evalue.dfy` | `EValues` | `calculate_e_value` |
| `coordinator.dfy` | `Coordinator` | routing, the `ACSCoordinator` class and its execution patterns |
| `lifecycle.dfy` | `Lifecycle` | `ResearchPhase`, `Milestone`, `ResearchProject` and the `ResearchLifecycleManager` class |
| `knowledge.dfy` | `Knowledge` | deduplication, citation, filters and text extraction |
| `memory.dfy` | `Memory` | the `ACSMentorMemory` class and its pure helpers |

### Form of the model

- State the source changes in place is a class:
  - `CausalDAG`, whose node and edge lists are `seq` fields the methods extend;
  - `DAGAdvisor`, with its current graph;
  - `ACSCoordinator`, with its specialist cache;
  - `Context`, a shared context dictionary, which `execute_sequential` changes in place;
  - `ResearchLifecycleManager`, with its project table;
  - `ACSMentorMemory`, with its error counter.
- Loops in the source are `while` loops with invariants. Each is proved against a function of
  the inputs, and the source's properties are lemmas about that function.
- Python exceptions are `Failure` values of `Result`, carrying the exception's class and what
  it names.
- Calls into code outside the core are parameters:
  - language-model calls (a specialist's `consult`, `synthesize`, the routing call's text);
  - Mem0's `search` and `add`;
  - the SQLite fallbacks;
  - `math.sqrt`;
  - `datetime.now().isoformat()`.

### Behaviour the proofs bring out

- `identify_adjustment_sets` attaches the collider warning to `adjustment_sets[0]`. A graph
  with colliders and no confounders makes that list empty, so the call raises `IndexError`
  (`causal/dag_advisor.py:252-256`). `CausalAdvisor.AdjustmentSets` models this failure, and
  its contract states exactly when it happens.
- `recommend_identification_strategy` tests whether a confounder is measured by name. An
  unmeasured confounder counts as measured when another node has the same name and is
  measured. `CausalAdvisor.NamesakeMasksUnmeasuredConfounder` exhibits this.
- The front-door rule's test `len(measured) < len(confounders)` always holds once the
  backdoor rule has failed.
- `construct_dag_interactive` always builds fully measured graphs. So, per
  `ConstructedRecommendsBackdoor`, the strategy for any constructed graph is backdoor
  adjustment.
- `parse_routing_decision` never produces the `ITERATIVE` pattern.
  `Coordinator.RoutingIsWellFormed` proves that the decision names one to four distinct
  known specialists. So `coordinate` never raises on the pattern and never meets an unknown
  specialist.
- The DOT text cannot be read back into the same graph. Collider and instrument nodes print
  alike, and so do causal and other non-confounding edges (`DotForgetsRoles`).
- A failed Mem0 write in `store_interaction` hands the fallback the caller's metadata. The
  session id, timestamp and occurrence count that were just computed are lost.
- `_deduplicate_results` calls `.lower()` on the DOI and title. A non-string value in either
  field raises `AttributeError`.

### The E-value example

- For a risk ratio of 1.5 with confidence interval 1.2 to 1.9, the bound nearest 1 is 1.2.
  Its E-value is `1.2 + sqrt(1.2 * 0.2)`, about 1.69; the point E-value is about 2.37, in
  the strong tier (`EValues.WorkedExample`). The `EValue` result carries these as
  `point_estimate` and `ci_bound`, with `robustness_assessment` and `interpretation`.

## Model

| member | source | states |
|---|---|---|
| CausalGraph.CausalDAG.constructor | causal/dag_advisor.py:65-69 | a new graph has no nodes, no edges, no exposure and no outcome |
| CausalGraph.CausalDAG.AddNode | causal/dag_advisor.py:71-79 | the node is appended and the edges are untouched; the exposure (outcome) becomes the name exactly when the type is exposure (outcome) and otherwise keeps its value |
| CausalGraph.CausalDAG.AddEdge | causal/dag_advisor.py:81-84 | the edge is appended and nodes, exposure and outcome are unchanged |
| CausalGraph.ParentsOf | causal/dag_advisor.py:86-88 | a name is listed exactly when some edge runs from it into the node; there are at most as many entries as edges |
| CausalGraph.ChildrenOf | causal/dag_advisor.py:90-92 | a name is listed exactly when some edge runs from the node into it; there are at most as many entries as edges |
| CausalGraph.CausalDAG.GetParents | causal/dag_advisor.py:86-88 | the same "exactly the sources of incoming edges" property over the object's current edges |
| CausalGraph.CausalDAG.GetChildren | causal/dag_advisor.py:90-92 | the same "exactly the targets of outgoing edges" property over the object's current edges |
| CausalGraph.TrianglePaths | causal/dag_advisor.py:104-109 | the search finds at most one path per node |
| CausalGraph.TrianglePathsSound | causal/dag_advisor.py:104-109 | every path found is `[exposure, c, outcome]`, where `c` is neither end and has an edge into each end |
| CausalGraph.TrianglePathsFromNodes | causal/dag_advisor.py:104-109 | every path found has the name of a node of the list as its middle |
| CausalGraph.TrianglePathsComplete | causal/dag_advisor.py:104-109 | every node that is neither end and points into both ends gives its path |
| CausalGraph.BackdoorPaths | causal/dag_advisor.py:94-111 | there are no paths unless both ends are set to non-empty names (`not self.exposure`); otherwise the result is the triangle search over the nodes in order |
| CausalGraph.CausalDAG.FindBackdoorPaths | causal/dag_advisor.py:94-111 | the loop returns `BackdoorPaths` of the object's current state |
| CausalGraph.NodeLinesAt | causal/dag_advisor.py:118-133 | the i-th node line is the line for the i-th node |
| CausalGraph.EdgeLinesAt | causal/dag_advisor.py:136-138 | the j-th edge line is the line for the j-th edge |
| CausalGraph.DotLayout | causal/dag_advisor.py:113-141 | the lines are the header, one line per node in node order, one line per edge in edge order, then the closing brace; there are `nodes + edges + 2` of them |
| CausalGraph.DotLinesRoundTrip | causal/dag_advisor.py:140-141 | when no name contains a newline, splitting the DOT text at newlines gives back exactly the lines it was joined from |
| CausalGraph.NodeLineHasNoNewline | causal/dag_advisor.py:119-133 | a node line has no newline when the node's name has none |
| CausalGraph.EdgeLineHasNoNewline | causal/dag_advisor.py:137-138 | an edge line has no newline when neither endpoint has one |
| CausalGraph.NodeAttrsHaveNoNewline | causal/dag_advisor.py:119-132 | no node attribute contains a newline |
| CausalGraph.RoleAttrsShape | causal/dag_advisor.py:119-128 | a role gives at most one attribute, never `style=dashed`, and that attribute is non-empty, has no newline and does not end in `d` |
| CausalGraph.DashedIffUnmeasured | causal/dag_advisor.py:129-133 | a node gets `style=dashed`, and its line ends in `style=dashed];`, exactly when it is unmeasured |
| CausalGraph.UnmeasuredNodeDashed | causal/dag_advisor.py:129-133 | an unmeasured node's line ends in `style=dashed];` |
| CausalGraph.MeasuredNodeSolid | causal/dag_advisor.py:129-133 | a measured node has no dashed attribute and its line does not end in `style=dashed];` |
| CausalGraph.EdgeDashedIffUnmeasuredConfounding | causal/dag_advisor.py:136-138 | an edge line ends in `[style=dashed, color=red];` exactly when the edge is an unmeasured-confounding edge, and otherwise ends in `[style=solid];` |
| CausalGraph.MeasuredColliderOrInstrumentHasNoAttrs | causal/dag_advisor.py:119-133 | a measured collider or instrument is written with the empty attribute list `[]` |
| CausalGraph.DotForgetsRoles | causal/dag_advisor.py:119-138 | collider and instrument nodes print alike, and so do causal and other non-confounding edges |
| CausalGraph.WriteNodeLine | causal/dag_advisor.py:119-133 | the node line is built by appending attributes to a list, as the loop body does |
| CausalGraph.WriteEdgeLine | causal/dag_advisor.py:137-138 | the edge line with the style chosen by edge type |
| CausalGraph.CausalDAG.ToDot | causal/dag_advisor.py:113-141 | the text is the newline-join of the DOT lines of the object's current state |
| CausalAdvisor.NamesOfRoleNodes | causal/dag_advisor.py:198-210 | the nodes built for a list of names under one role carry exactly those names, in order, as that role, and none as any other role |
| CausalAdvisor.ConfounderEdges | causal/dag_advisor.py:200-203 | two edges per confounder |
| CausalAdvisor.MediatorEdges | causal/dag_advisor.py:207-210 | two edges per mediator |
| CausalAdvisor.ConstructedShape | causal/dag_advisor.py:186-215 | construction fails exactly when the inputs are truthy and lack the exposure or the outcome; otherwise the graph has `2 + confounders + mediators` nodes, `2 * (confounders + mediators) + 1` edges, and the given ends |
| CausalAdvisor.ConfounderEdgesHas | causal/dag_advisor.py:200-203 | the confounder edges run exactly from each confounder into each end |
| CausalAdvisor.MediatorEdgesHas | causal/dag_advisor.py:207-210 | the mediator edges run exactly from the exposure into each mediator and from each mediator into the outcome |
| CausalAdvisor.BuiltEdges | causal/dag_advisor.py:198-213 | a constructed graph has an edge from x to y exactly when it is a confounder edge, a mediator edge or the exposure-outcome edge |
| CausalAdvisor.ConfounderIsApex | causal/dag_advisor.py:104-109 | in a constructed graph with distinct roles, every confounder points into both ends |
| CausalAdvisor.MediatorIsNotApex | causal/dag_advisor.py:104-109 | in a constructed graph with distinct roles, no mediator points into the exposure |
| CausalAdvisor.BuiltBackdoorPaths | causal/dag_advisor.py:94-111 | with distinct roles, the backdoor paths of a constructed graph are exactly `[exposure, c, outcome]` for each confounder `c`, in input order |
| CausalAdvisor.NamesOfType | causal/dag_advisor.py:240 | a name is listed exactly when some node of that type has it |
| CausalAdvisor.BuiltNamesOfType | causal/dag_advisor.py:240 | the names of each role in a constructed graph are exactly the inputs for that role |
| CausalAdvisor.BuiltPathStrings | causal/dag_advisor.py:246 | with distinct roles, a constructed graph's blocked-path strings are one `exposure ← c ← outcome` per confounder, in input order |
| CausalAdvisor.AdjustmentSets | causal/dag_advisor.py:218-258 | the result is empty without a graph or with an end that is `None`. It fails with `IndexError` exactly when there are colliders and no confounders. Otherwise there is one set exactly when there are confounders: they are its variables, its type is `minimal_sufficient`, it blocks the backdoor paths, and it holds the collider warning if there are colliders |
| CausalAdvisor.BuiltAdjustmentSet | causal/dag_advisor.py:218-258 | with distinct roles and some confounder, a constructed graph gets one set: the confounders, with one blocked-path string `exposure ← c ← outcome` per confounder and no warnings |
| CausalAdvisor.MeasuredOnly | causal/dag_advisor.py:339-340 | no confounder is dropped exactly when every listed confounder has a measured namesake |
| CausalAdvisor.Recommend | causal/dag_advisor.py:331-356 | there is no DAG exactly for a missing graph. Backdoor exactly when every confounder has a measured namesake (also when there is no confounder); else IV exactly when there is an instrument; else front-door exactly when there is a mediator; else the standard caveat |
| CausalAdvisor.NamesakeMasksUnmeasuredConfounder | causal/dag_advisor.py:339-343 | an unmeasured confounder named like a measured exposure still yields backdoor adjustment |
| CausalAdvisor.ConstructedRecommendsBackdoor | causal/dag_advisor.py:186-216 | every graph construction builds is recommended backdoor adjustment |
| CausalAdvisor.AddConfounders | causal/dag_advisor.py:199-203 | the loop fails exactly when there is a confounder and an end is missing, with that end's `KeyError`; with both ends it appends the confounder nodes and their edges |
| CausalAdvisor.AddMediators | causal/dag_advisor.py:206-210 | the same for mediators and their edges |
| CausalAdvisor.BuildDag | causal/dag_advisor.py:189-213 | building succeeds exactly when both ends are given; a failure is the `KeyError` of the first missing end; on success the object holds the described graph |
| CausalAdvisor.DAGAdvisor.constructor | causal/dag_advisor.py:147-151 | no current graph |
| CausalAdvisor.DAGAdvisor.ConstructDagInteractive | causal/dag_advisor.py:171-216 | succeeds exactly when the construction does. On success it returns a fresh graph holding the constructed value and makes it the current graph. On failure the current graph is unchanged |
| CausalAdvisor.DAGAdvisor.IdentifyAdjustmentSets | causal/dag_advisor.py:218-258 | the adjustment sets of the given graph, or of the current one when none is given |
| CausalAdvisor.DAGAdvisor.RecommendIdentificationStrategy | causal/dag_advisor.py:316-356 | the text of the recommended strategy for the given or current graph |
| EValues.NormalizedInDomain | causal/dag_advisor.py:282-286 | after the reciprocal rule the square root's argument is non-negative; a positive ratio becomes at least 1, and above 1 unless it was 1 |
| EValues.Reciprocal | causal/dag_advisor.py:282-284 | where `1 / e` lies for e in each range |
| EValues.ClosestToNull | causal/dag_advisor.py:292 | the bound chosen is one of the two and is nearest to 1, and a tie picks the upper bound |
| EValues.TierOf | causal/dag_advisor.py:299-307 | weak below 1.5, moderate from 1.5 up to 2, strong from 2 |
| EValues.CiEValue | causal/dag_advisor.py:289-296 | there is a bound E-value exactly when both bounds are truthy, and it is the E-value of the bound nearest to 1 |
| EValues.CalculateEValue | causal/dag_advisor.py:260-314 | fails with `ZeroDivisionError` exactly for the ratio 0; otherwise the point E-value, its tier and interpretation, and the bound E-value |
| EValues.EValueNotZero | causal/dag_advisor.py:289-311 | a bound's E-value is never 0, so `if e_val_ci` never drops a computed bound |
| EValues.EValueAtLeastOne | causal/dag_advisor.py:282-286 | for any positive ratio the E-value is at least 1, and is 1 exactly at ratio 1 |
| EValues.EValueSymmetric | causal/dag_advisor.py:282-286 | a ratio and its reciprocal have the same E-value |
| EValues.FormulaStrictlyIncreasing | causal/dag_advisor.py:286 | from 1 upwards the formula is strictly increasing |
| EValues.WorkedExample | causal/dag_advisor.py:260-314 | RR 1.5 with CI 1.2 to 1.9 gives a point E-value between 2.366 and 2.367 (strong) and a bound E-value between 1.689 and 1.69 |
| Coordinator.Selected | agents/coordinator.py:187-195 | each domain is listed exactly when its test hit, in test order |
| Coordinator.DetectDomains | agents/coordinator.py:186-195 | a domain is listed exactly when some of its keywords is in the lower-cased message, in the order design, stats, writing, strategy |
| Coordinator.RankedIsDistinct | agents/coordinator.py:186-195 | the detected domains are distinct, at most four |
| Coordinator.Complexity | agents/coordinator.py:222 | the score lies in [0.3, 1.0] and is 1.0 exactly from three domains on |
| Coordinator.ParseRoutingDecision | agents/coordinator.py:169-230 | the specialists are the mapped domains, or Design-Specialist when there is none. The pattern is single for zero or one domains, sequential for several including both design and stats, and parallel otherwise. The score follows the domain count and the reasoning is the model's text |
| Coordinator.RoutingIsWellFormed | agents/coordinator.py:197-219 | the decision names one to four distinct known specialists, is never iterative, and is single exactly when it names one |
| Coordinator.SpecialistsOfDomains | agents/coordinator.py:197-210 | mapped specialists of ranked domains are known and pairwise distinct |
| Coordinator.SpecialistForInjective | agents/coordinator.py:198-203 | the domain-to-specialist map is injective into the four known names |
| Coordinator.SequentialPrefix | agents/coordinator.py:273-283 | the first k outputs of a sequential run do not depend on the later specialists |
| Coordinator.SequentialSeesPrevious | agents/coordinator.py:273-283 | the first specialist sees the caller's context; the k-th sees it with the previous-outputs key set to exactly the k earlier outputs, in order |
| Coordinator.ParallelOutputsAppend | agents/coordinator.py:304-311 | a parallel run over two lists is the two runs side by side, so no specialist's output depends on which others run (unlike a sequential run) |
| Coordinator.ACSCoordinator.constructor | agents/coordinator.py:77 | the specialist cache is empty |
| Coordinator.ACSCoordinator.GetSpecialist | agents/coordinator.py:97-127 | a cached name returns its instance; a known uncached name creates, caches and returns a fresh instance; an unknown name raises `ValueError("Unknown specialist: …")` and leaves the cache alone |
| Coordinator.ACSCoordinator.ExecuteSingle | agents/coordinator.py:232-251 | succeeds exactly for a known name and returns its consultation |
| Coordinator.ACSCoordinator.ExecuteSequential | agents/coordinator.py:253-285 | succeeds exactly when every name is known and returns the sequential outputs. A non-empty caller context is changed in place, ending with the outputs before the last one; a missing or empty one is untouched |
| Coordinator.ACSCoordinator.ConsultInTurn | agents/coordinator.py:270-285 | the loop, in terms of the shared dictionary's final contents |
| Coordinator.ACSCoordinator.ExecuteParallel | agents/coordinator.py:287-311 | succeeds exactly when every name is known and returns the parallel outputs |
| Coordinator.ACSCoordinator.Coordinate | agents/coordinator.py:354-418 | fails only for the iterative pattern. Single returns the one specialist's output on the caller context. Sequential and parallel return the synthesis of their outputs |
| Lifecycle.PhaseValueInjective | lifecycle/research_lifecycle.py:24-30 | distinct phases have distinct values |
| Lifecycle.PhaseFromValue | lifecycle/research_lifecycle.py:24-30 | `ResearchPhase(s)` finds the phase with value s, and raises `ValueError` for any other string |
| Lifecycle.ParseMilestone | lifecycle/research_lifecycle.py:117-120 | a milestone entry needs `milestone` then `phase` (each a `KeyError` when missing) and a valid phase; it gives an uncompleted milestone with that name and phase |
| Lifecycle.CreatedMilestones | lifecycle/research_lifecycle.py:115-121 | creation succeeds exactly when every entry is valid, and gives one uncompleted milestone per entry, in order |
| Lifecycle.MarkedSpec | lifecycle/research_lifecycle.py:166-169 | marking keeps the length, completes exactly the milestones with the name, and leaves the rest as they were |
| Lifecycle.MarkedIdempotent | lifecycle/research_lifecycle.py:166-169 | marking twice is marking once |
| Lifecycle.MarkedCommute | lifecycle/research_lifecycle.py:166-169 | marking two names in either order gives the same milestones |
| Lifecycle.MarkMilestones | lifecycle/research_lifecycle.py:166-169 | the in-place loop gives the marked milestones |
| Lifecycle.CompletedCount | lifecycle/research_lifecycle.py:383 | at most all milestones are completed, and all are exactly when every one is |
| Lifecycle.NextMilestone | lifecycle/research_lifecycle.py:392 | the name of the first uncompleted milestone, else "All complete!" |
| Lifecycle.MarkedCountGrows | lifecycle/research_lifecycle.py:166-169 | marking never lowers the completed count |
| Lifecycle.ProgressBounds | lifecycle/research_lifecycle.py:383-392 | completed ≤ total; the percentage is in [0, 100] and is 100 exactly when there are milestones and all are completed, and then the next milestone reads "All complete!" |
| Lifecycle.PercentageBounds | lifecycle/research_lifecycle.py:391 | the percentage is in [0, 100] and is 100 exactly when `total > 0` and `completed == total` |
| Lifecycle.ReportingStandard | lifecycle/research_lifecycle.py:212-213 | the configured standard for the lower-cased design, else STROBE |
| Lifecycle.ReportingStandardIgnoresCase | lifecycle/research_lifecycle.py:213 | designs that lower-case alike get the same standard |
| Lifecycle.FirstSectionSpec | lifecycle/research_lifecycle.py:304-308 | the first entry matching case-insensitively, with all earlier entries keyed and not matching. Nothing exactly when all entries are keyed and none matches. A `KeyError` at the first entry reached that has no `section` key |
| Lifecycle.ResearchLifecycleManager.constructor | lifecycle/research_lifecycle.py:85-88 | the configuration is kept and the project table is empty |
| Lifecycle.ResearchLifecycleManager.CreateProject | lifecycle/research_lifecycle.py:99-124 | succeeds exactly when the configured milestones parse. It stores the default project with them under the id, replacing any old one. A failure stores nothing |
| Lifecycle.ResearchLifecycleManager.FormulateQuestion | lifecycle/research_lifecycle.py:126-183 | a missing id raises "Project not found" and changes nothing. Otherwise only that project changes: it gets the question, the PICO elements if truthy, and the FINER scores; "RQ formulated" is marked; the phase moves to study design |
| Lifecycle.ResearchLifecycleManager.DesignStudy | lifecycle/research_lifecycle.py:185-234 | likewise: a missing id raises and changes nothing. Otherwise the project gets the design, sample size and a draft protocol, and "Protocol complete" is marked. The guidance names the reporting standard |
| Lifecycle.ResearchLifecycleManager.AnalyzeData | lifecycle/research_lifecycle.py:236-279 | likewise: "Analysis complete" is marked and the phase moves to manuscript writing |
| Lifecycle.ResearchLifecycleManager.FindSection | lifecycle/research_lifecycle.py:304-308 | the search loop gives `FirstSection` |
| Lifecycle.ResearchLifecycleManager.WriteManuscript | lifecycle/research_lifecycle.py:281-328 | fails exactly for a missing id or a failing section search, and a failure changes nothing. Otherwise "Manuscript drafted" is marked, the phase moves to submission, and the guidance carries the section, the word limit and `Follow {design} checklist` |
| Lifecycle.ResearchLifecycleManager.PrepareSubmission | lifecycle/research_lifecycle.py:330-367 | a missing id raises and changes nothing; otherwise only the target journal is recorded |
| Lifecycle.ResearchLifecycleManager.GetProgress | lifecycle/research_lifecycle.py:369-399 | a missing id raises "Project not found". Otherwise the result is the project's progress summary (phase, completed count, total, percentage, next milestone and the echoed fields): completed ≤ total, the percentage is in [0, 100], and it is 100 exactly when the project has milestones and all are completed |
| Lifecycle.OperationsKeepMilestones | lifecycle/research_lifecycle.py:126-328 | every phase operation keeps the milestone count and never clears a completed flag |
| Lifecycle.LifecycleMarksAll | lifecycle/research_lifecycle.py:126-367 | the five operations in order mark the four standard milestones and end in the submission phase |
| Lifecycle.StandardMarkedComplete | lifecycle/research_lifecycle.py:126-328 | marking the four standard names completes every milestone carrying one |
| Lifecycle.FullLifecycleCompletes | lifecycle/research_lifecycle.py:126-399 | on a project whose milestones carry the standard names, the full lifecycle ends at 100 percent and "All complete!" |
| Knowledge.LowerField | knowledge/llamaindex_integration.py:360-361 | succeeds exactly when the key is absent or holds a string, giving it lower-cased (or "") |
| Knowledge.DedupSeenDois | knowledge/llamaindex_integration.py:363-377 | the DOIs seen are exactly the non-empty DOIs of kept results |
| Knowledge.DedupSeenTitles | knowledge/llamaindex_integration.py:363-377 | the titles seen are exactly the non-empty titles of kept results |
| Knowledge.DedupDropIff | knowledge/llamaindex_integration.py:363-372 | a result is dropped exactly when an earlier kept result shares its non-empty DOI or its non-empty title |
| Knowledge.DedupDistinct | knowledge/llamaindex_integration.py:352-380 | kept results have pairwise distinct non-empty DOIs and titles, and a result with neither is always kept |
| Knowledge.DedupSelected | knowledge/llamaindex_integration.py:352-380 | deduplicating the kept keys keeps them all and sees the same DOIs and titles |
| Knowledge.DedupIdempotent | knowledge/llamaindex_integration.py:352-380 | deduplicating twice is deduplicating once |
| Knowledge.DeduplicateResults | knowledge/llamaindex_integration.py:352-380 | the loop gives the kept results in input order, or the first `AttributeError` |
| Knowledge.JoinStrs | knowledge/llamaindex_integration.py:404 | `", ".join` succeeds exactly when every item is a string |
| Knowledge.AuthorsString | knowledge/llamaindex_integration.py:399-408 | one author as given; two or three as "A, B & C"; more as "First et al."; a non-list through `str`. It fails exactly for an empty list, which raises `IndexError`, or for two or three authors with a non-string before the last |
| Knowledge.JournalFragmentBounds | knowledge/llamaindex_integration.py:413-421 | the journal part opens with the italic journal and ends with a period |
| Knowledge.CitationLayout | knowledge/llamaindex_integration.py:411-426 | the citation starts with the authors, year and title. With a truthy DOI it ends with the DOI link; otherwise it is the head and the journal part. Without a journal it is the head and the DOI part, so there is no volume, issue or pages. With a journal the journal part follows the head |
| Knowledge.GenerateCitation | knowledge/llamaindex_integration.py:382-426 | the step-by-step construction gives `Citation` |
| Knowledge.Compare | knowledge/llamaindex_integration.py:683-686 | `<`/`>` succeed exactly on two integers or two strings, with integer order on integers |
| Knowledge.MatchesIff | knowledge/llamaindex_integration.py:670-690 | a result matches exactly when every filter key is present and every filter holds |
| Knowledge.MatchFlag | knowledge/llamaindex_integration.py:670-691 | a successful match is the "passes every filter" flag |
| Knowledge.FilteredKeepsPassing | knowledge/llamaindex_integration.py:664-694 | filtering keeps, in order, exactly the results that pass every filter |
| Knowledge.MatchesFilters | knowledge/llamaindex_integration.py:670-690 | the inner loop: a missing key stops with no match, a mismatch goes on, a failed comparison raises |
| Knowledge.ApplyFilters | knowledge/llamaindex_integration.py:664-694 | the outer loop gives `Filtered` |
| Knowledge.KeywordsOf | knowledge/llamaindex_integration.py:719 | each keyword is one of the words, longer than three characters and not a stopword |
| Knowledge.TopKeywordsRoundTrip | knowledge/llamaindex_integration.py:722 | the first five keywords, joined on spaces, split back into themselves |
| Knowledge.TopicWords | knowledge/llamaindex_integration.py:709-722 | the topic splits into the first five keywords of the lower-cased message, in order: at most five, each a keyword and a word of the message |
| Knowledge.PrefixOf | knowledge/llamaindex_integration.py:734 | `s[:n]` is a prefix, of length at most n for n ≥ 0 |
| Knowledge.StripInside | knowledge/llamaindex_integration.py:730 | `strip` keeps only characters of the string and leaves no surrounding whitespace |
| Knowledge.KeyFindingSpec | knowledge/llamaindex_integration.py:725-735 | the finding is the stripped first sentence, which has no period, when it fits. Otherwise it is its first `max_length` characters and "...". For a non-negative limit it is at most `max_length + 3` long |
| Memory.Bucketed | memory/mem0_integration.py:162-197 | a bucket has no more entries than there are hits |
| Memory.Categorized | memory/mem0_integration.py:162-202 | each list holds its bucket's hits in search order, converted, and cut to 5 history entries, 3 success cases and 5 recurring errors |
| Memory.BucketedMembers | memory/mem0_integration.py:168-197 | a hit is in a bucket exactly when it is a hit and the bucket is the one its metadata selects |
| Memory.ExactlyOneBucket | memory/mem0_integration.py:168-197 | each hit lands in its own bucket and in no other |
| Memory.BucketsPartition | memory/mem0_integration.py:162-197 | the three buckets together hold every hit once |
| Memory.CategorizeResults | memory/mem0_integration.py:154-202 | the loop gives `Categorized` |
| Memory.CountOfType | memory/mem0_integration.py:326-327 | the count of hits recording the error type is at most the number of hits |
| Memory.FullMetadata | memory/mem0_integration.py:231-243 | the caller's metadata with the session, time and both messages set; the occurrence count is replaced by the prior count plus one exactly for a detected, typed error |
| Memory.ErrorTypesSpec | memory/mem0_integration.py:345-349 | the counted keys are distinct and are exactly the non-empty types some memory records |
| Memory.Tallies | memory/mem0_integration.py:345-349 | one dict entry per distinct error type |
| Memory.InsertDesc | memory/mem0_integration.py:352 | insertion adds exactly the one entry |
| Memory.SortDesc | memory/mem0_integration.py:352 | sorting is a permutation |
| Memory.InsertDescSorted | memory/mem0_integration.py:352 | inserting a later-seen entry keeps the list sorted by count, largest first, stably |
| Memory.SortDescSorted | memory/mem0_integration.py:352 | `sorted(..., reverse=True)` of the dict items is sorted by count and stable |
| Memory.SortedTallies | memory/mem0_integration.py:345-352 | the sorted entries are sorted, one per error type, each with its true count at its key's position |
| Memory.ErrorPatternsFromTypes | memory/mem0_integration.py:343-353 | there are min(types, 5) patterns, each a recorded type |
| Memory.ErrorPatternsDistinct | memory/mem0_integration.py:343-353 | no error type is reported twice |
| Memory.ErrorPatternsOrdered | memory/mem0_integration.py:352-353 | patterns come in non-increasing count, and ties in first-seen order |
| Memory.ErrorPatternsTop | memory/mem0_integration.py:352-353 | a type left out is counted no more than any reported one, and only when five are reported |
| Memory.ExtractErrorPatterns | memory/mem0_integration.py:343-353 | the counting loop gives `ErrorPatterns` |
| Memory.TimestampsMembers | memory/mem0_integration.py:370-372 | the timestamps listed are exactly the non-empty ones recorded |
| Memory.MaxStringSpec | memory/mem0_integration.py:375 | `max` is one of the strings and no string is greater |
| Memory.LastInteractionTimeSpec | memory/mem0_integration.py:365-376 | no time exactly when no memory has a non-empty timestamp; otherwise the greatest recorded one |
| Memory.ACSMentorMemory.constructor | memory/mem0_integration.py:58-76 | Mem0 availability is whether its client initialised; fallback defaults to enabled and the threshold to 3; no errors yet |
| Memory.ACSMentorMemory.RetrieveContext | memory/mem0_integration.py:104-141 | while Mem0 is in use and its search succeeds, the categorised hits. Otherwise the fallback when enabled, else the empty context. The counter grows by one exactly for a failed Mem0 search |
| Memory.ACSMentorMemory.StoreInteraction | memory/mem0_integration.py:210-274 | while Mem0 is in use, a successful add stores the completed metadata; a failed add counts one error and falls back with the caller's metadata. Without Mem0 the fallback gets the completed metadata. With the fallback disabled nothing is stored |
| Memory.ACSMentorMemory.HealthCheck | memory/mem0_integration.py:518-540 | degraded exactly when the counter has reached the threshold, and then retrieval and storage no longer use Mem0; responsiveness is probed only when Mem0 initialised, and is true exactly when the probe succeeds |
| Text.LowerMeaning | agents/coordinator.py:188 | after lower-casing no ASCII capital remains, every other character is unchanged, and each capital becomes its small letter |
| Text.LowerIdempotent | lifecycle/research_lifecycle.py:213 | lower-casing twice is lower-casing once |
| Text.ContainsIff | agents/coordinator.py:188 | `kw in text` holds exactly when kw occurs at some offset of text |
| Text.SplitJoin | causal/dag_advisor.py:141 | joining on a separator no part contains, then splitting on it, gives the parts back |
| Text.SplitFirst | knowledge/llamaindex_integration.py:728-730 | the first part of `split('.')` is the longest period-free prefix |
| Text.WordsJoin | knowledge/llamaindex_integration.py:718-722 | words joined on single spaces split back into the same words |
| Text.SeparatorsAreSpace | knowledge/llamaindex_integration.py:718-730 | `split()` splits at the separator U+001F and `strip()` removes it, as for any other whitespace |
| Text.StrLessTotal | memory/mem0_integration.py:375 | Python's string order is total |
| Text.StrLessTrans | memory/mem0_integration.py:375 | Python's string order is transitive |
| Common.MapAllFirstError | lifecycle/research_lifecycle.py:116-121 | a loop that raises reports the error of its first failing element, after all earlier elements succeeded |

## Left out

- Language-model calls are parameters: the routing call in `analyze_and_route` (its answer is
  the `decisionText` given to `ParseRoutingDecision`), each specialist's `consult`, and
  `synthesize`. Prompt formatting and configuration lookups for prompts are not modelled.
- Configuration files: YAML loading, `os.path.exists` and the missing-file branches are not
  modelled. The lifecycle's configuration is a constructor value holding the keys its
  operations read. The memory layer's configuration is the two keys its constructor reads.
- Printing and logging are not modelled.
- Dates: `datetime.now()` is not modelled in the lifecycle (`created_date` and
  `completed_date`). In the memory layer the ISO timestamp is a parameter of
  `StoreInteraction`.
- Guidance dictionaries echo configuration that is not read elsewhere. These fields are not
  modelled: PICO and protocol templates, protocol sections, the analysis workflow and SAP
  template, the submission checklist, the cover letter, and `project_summary.created_date`.
- Lifecycle projects are values in the manager's table, not shared objects. A caller holding
  the `ResearchProject` returned by `create_project` does not see later updates.
- A specialist's context is passed as a value at the moment of its call. A specialist that
  kept a reference to the shared dictionary would, in the source, see later writes.
- Python strings are modelled with ASCII only:
  - `lower()` lower-cases only ASCII letters;
  - `split()` and `strip()` recognise the ASCII whitespace `str.isspace` accepts (including
    U+001C to U+001F), but not non-ASCII whitespace such as U+0085 or U+00A0;
  - string order is code-point order.
- Floating point is not modelled: the E-value, complexity score, quality scores and
  percentage are exact reals.
- EValues.CalculateEValue: the result is not rounded to two decimals. The `effect_measure`
  argument is accepted and, as in the source, ignored.
- `math.sqrt` is a parameter. It may be any function that returns the non-negative square
  root of a non-negative real.
- Python's dynamic typing is narrowed:
  - graph, lifecycle and memory inputs have the documented types;
  - node and edge types other than the recognised names become `OtherType` and `OtherEdge`;
  - literature metadata values are strings, integers, lists or `None`, and comparing lists
    under a range filter is modelled as a `TypeError`;
  - memory metadata is the record of keys the code reads, so a present key with a `None`
    value reads as absent, and mistyped values are not modelled.
- `repr` does not escape quotes inside strings. Error messages of `TypeError` and
  `AttributeError` follow CPython's wording without further detail.
- Knowledge search, indexing, reranking, fetching and caching in
  `knowledge/llamaindex_integration.py` are outside the modelled core. Only the helpers
  listed above are modelled.
- The SQLite fallbacks (`_fallback_retrieve`, `_fallback_store`, `_fallback_get_profile`) are
  parameters that never fail, since the source catches every exception inside them.
- `get_user_profile`: of this function only `_extract_error_patterns` and
  `_get_last_interaction_time` are modelled. `_extract_skill_levels` returns a constant and
  `_calculate_avg_quality` is floating-point arithmetic; neither is modelled. Mem0's
  `get_all` is not modelled.
- Memory.ACSMentorMemory.RetrieveContext: the only exception in the Mem0 branch is a failed
  search. A hit whose metadata would make the comparisons in `_retrieve_from_mem0` raise is
  not modelled.
- The DAG advisor performs no d-separation, cycle or duplicate-name checks, and neither does
  the model. The `research_question` argument of `construct_dag_interactive` and the
  `data_available` argument of `recommend_identification_strategy` are unused in the source
  and in the model.
