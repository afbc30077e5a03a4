/**
 * The coordinator: the keyword routing rule that turns a query into a routing decision,
 * the lazily filled cache of specialist agents, and the sequential and parallel ways of
 * consulting them. A specialist's consultation and the synthesis of several outputs are
 * language-model calls and are parameters here (`consult`, `synthesize`).
 */
module Coordinator {
  import opened Common
  import opened Text

  // ---------- routing ----------

  datatype CollaborationPattern = Single | Sequential | Parallel | Iterative

  /** The four domains a query can touch, listed in the order they are tested. */
  datatype Domain = Design | Stats | Writing | Strategy

  datatype RoutingDecision = RoutingDecision(pattern: CollaborationPattern, specialists: seq<string>,
                                             reasoning: string, complexityScore: real,
                                             domains: seq<Domain>)

  /** The domain's name as it appears in a routing decision. */
  function DomainName(d: Domain): string
  {
    match d
    case Design => "design"
    case Stats => "stats"
    case Writing => "writing"
    case Strategy => "strategy"
  }

  function DomainKeywords(d: Domain): seq<string>
  {
    match d
    case Design => ["design", "study", "rct", "cohort", "sample"]
    case Stats => ["statistical", "analysis", "test", "power", "regression"]
    case Writing => ["write", "manuscript", "methods", "results", "discussion"]
    case Strategy => ["strategy", "career", "publication", "journal", "feasibility"]
  }

  /** The domain-to-specialist map. */
  function SpecialistFor(d: Domain): string
  {
    match d
    case Design => "Design-Specialist"
    case Stats => "Stats-Specialist"
    case Writing => "Writing-Specialist"
    case Strategy => "Strategy-Advisor"
  }

  const KnownSpecialists := ["Design-Specialist", "Stats-Specialist", "Writing-Specialist", "Strategy-Advisor"]

  /** `any(kw in text for kw in keywords)`. */
  predicate AnyKeyword(text: string, keywords: seq<string>)
  {
    exists k :: 0 <= k < |keywords| && Contains(text, keywords[k])
  }

  /** The domain is hit by the lower-cased message. */
  predicate Hits(message: string, d: Domain)
  {
    AnyKeyword(Lower(message), DomainKeywords(d))
  }

  /** Position of a domain in the testing order. */
  function Rank(d: Domain): nat
  {
    match d
    case Design => 0
    case Stats => 1
    case Writing => 2
    case Strategy => 3
  }

  /** The domains among `[Design, Stats, Writing, Strategy]` that `hit` selects, in order. */
  function Selected(h0: bool, h1: bool, h2: bool, h3: bool): (ds: seq<Domain>)
    ensures Design in ds <==> h0
    ensures Stats in ds <==> h1
    ensures Writing in ds <==> h2
    ensures Strategy in ds <==> h3
    ensures forall i, j :: 0 <= i < j < |ds| ==> Rank(ds[i]) < Rank(ds[j])
  {
    (if h0 then [Design] else []) + (if h1 then [Stats] else []) +
    (if h2 then [Writing] else []) + (if h3 then [Strategy] else [])
  }

  /** The detected domains: exactly the hit ones, each once, in the testing order. */
  function DetectDomains(message: string): (ds: seq<Domain>)
    ensures Design in ds <==> Hits(message, Design)
    ensures Stats in ds <==> Hits(message, Stats)
    ensures Writing in ds <==> Hits(message, Writing)
    ensures Strategy in ds <==> Hits(message, Strategy)
    ensures forall i, j :: 0 <= i < j < |ds| ==> Rank(ds[i]) < Rank(ds[j])
  {
    Selected(Hits(message, Design), Hits(message, Stats), Hits(message, Writing), Hits(message, Strategy))
  }

  /** Ordered by rank, a domain list has no repeats and at most four entries. */
  lemma RankedIsDistinct(ds: seq<Domain>)
    requires forall i, j :: 0 <= i < j < |ds| ==> Rank(ds[i]) < Rank(ds[j])
    ensures forall i, j :: 0 <= i < j < |ds| ==> ds[i] != ds[j]
    ensures |ds| <= 4
  {
    if |ds| > 4 {
      assert Rank(ds[0]) < Rank(ds[1]) < Rank(ds[2]) < Rank(ds[3]) < Rank(ds[4]);
    }
  }

  /** `min(len(domains) * 0.3 + 0.3, 1.0)`, over exact reals. */
  function Complexity(domainCount: nat): (c: real)
    ensures 0.3 <= c <= 1.0
    ensures c == 1.0 <==> domainCount >= 3
  {
    var raw := domainCount as real * 0.3 + 0.3;
    if raw <= 1.0 then raw else 1.0
  }

  /** `_parse_routing_decision`. */
  function ParseRoutingDecision(decisionText: string, userMessage: string): (r: RoutingDecision)
    ensures r.domains == DetectDomains(userMessage)
    ensures |r.domains| > 0 ==>
      |r.specialists| == |r.domains| &&
      forall i :: 0 <= i < |r.domains| ==> r.specialists[i] == SpecialistFor(r.domains[i])
    ensures |r.domains| == 0 ==> r.specialists == ["Design-Specialist"] && r.pattern == Single
    ensures |r.domains| == 1 ==> r.pattern == Single
    ensures |r.domains| >= 2 && Design in r.domains && Stats in r.domains ==> r.pattern == Sequential
    ensures |r.domains| >= 2 && !(Design in r.domains && Stats in r.domains) ==> r.pattern == Parallel
    ensures r.complexityScore == Complexity(|r.domains|)
    ensures r.reasoning == decisionText
  {
    var domains := DetectDomains(userMessage);
    var mapped := seq(|domains|, i requires 0 <= i < |domains| => SpecialistFor(domains[i]));
    var pattern :=
      if |mapped| == 0 then Single
      else if |mapped| == 1 then Single
      else if Design in domains && Stats in domains then Sequential
      else Parallel;
    var specialists := if |mapped| == 0 then ["Design-Specialist"] else mapped;
    RoutingDecision(pattern, specialists, decisionText, Complexity(|domains|), domains)
  }

  /** Every decision names one to four specialists, distinct and known, and the pattern is
      never `Iterative`; it is `Single` exactly when one specialist is named. */
  lemma RoutingIsWellFormed(decisionText: string, userMessage: string)
    ensures var r := ParseRoutingDecision(decisionText, userMessage);
      && 1 <= |r.specialists| <= 4
      && (forall i :: 0 <= i < |r.specialists| ==> r.specialists[i] in KnownSpecialists)
      && (forall i, j :: 0 <= i < j < |r.specialists| ==> r.specialists[i] != r.specialists[j])
      && r.pattern != Iterative
      && (r.pattern == Single <==> |r.specialists| == 1)
  {
    var r := ParseRoutingDecision(decisionText, userMessage);
    SpecialistsOfDomains(r.domains, r.specialists);
  }

  /** The mapped specialists of a ranked domain list are known and pairwise distinct. */
  lemma SpecialistsOfDomains(ds: seq<Domain>, names: seq<string>)
    requires forall i, j :: 0 <= i < j < |ds| ==> Rank(ds[i]) < Rank(ds[j])
    requires |ds| == 0 ==> names == ["Design-Specialist"]
    requires |ds| > 0 ==> |names| == |ds| && forall i :: 0 <= i < |ds| ==> names[i] == SpecialistFor(ds[i])
    ensures 1 <= |names| <= 4
    ensures forall i :: 0 <= i < |names| ==> names[i] in KnownSpecialists
    ensures forall i, j :: 0 <= i < j < |names| ==> names[i] != names[j]
  {
    RankedIsDistinct(ds);
    if |ds| > 0 {
      forall i, j | 0 <= i < j < |names| ensures names[i] != names[j] {
        SpecialistForInjective(ds[i], ds[j]);
      }
    }
  }

  lemma SpecialistForInjective(a: Domain, b: Domain)
    ensures SpecialistFor(a) in KnownSpecialists
    ensures a != b ==> SpecialistFor(a) != SpecialistFor(b)
  {
    var x, y := SpecialistFor(a), SpecialistFor(b);
    if a != b {
      // the names already differ in their first or third character
      assert x[0] != y[0] || x[2] != y[2];
    }
  }

  // ---------- specialists and their outputs ----------

  /** A specialist agent instance; only its identity and name matter here. */
  class Specialist {
    const name: string

    constructor (name: string)
      ensures this.name == name
    {
      this.name := name;
    }
  }

  datatype SpecialistOutput = SpecialistOutput(specialistName: string, domain: string, output: string,
                                               confidence: real, references: seq<string>)

  /** One `{'specialist': ..., 'output': ...}` entry of the shared context. */
  datatype PreviousOutput = PreviousOutput(specialist: string, output: string)

  /** A value stored in a context dictionary. */
  datatype CtxValue = CtxText(text: string) | CtxPrevious(outputs: seq<PreviousOutput>) | CtxOpaque(id: int)

  type Ctx = map<string, CtxValue>

  /** A specialist's `consult(user_message, context)`, by specialist name; `None` is a missing
      context. */
  type Consult = (string, string, Option<Ctx>) -> SpecialistOutput

  const PreviousKey := "previous_specialist_outputs"

  /** A mutable context dictionary, shared by reference. */
  class Context {
    var entries: Ctx

    constructor (entries: Ctx)
      ensures this.entries == entries
    {
      this.entries := entries;
    }
  }

  function Summaries(outs: seq<SpecialistOutput>): (r: seq<PreviousOutput>)
    ensures |r| == |outs|
    ensures forall k :: 0 <= k < |outs| ==> r[k] == PreviousOutput(outs[k].specialistName, outs[k].output)
  {
    seq(|outs|, k requires 0 <= k < |outs| => PreviousOutput(outs[k].specialistName, outs[k].output))
  }

  /** The context a sequential step sees after the outputs `prev`: unchanged before any
      output, otherwise with the previous-outputs key set to all of them. */
  function Seen(init: Ctx, prev: seq<SpecialistOutput>): Ctx
  {
    if |prev| == 0 then init else init[PreviousKey := CtxPrevious(Summaries(prev))]
  }

  /** The outputs of a sequential consultation. */
  function SequentialOutputs(names: seq<string>, message: string, init: Ctx, consult: Consult)
    : (outs: seq<SpecialistOutput>)
    ensures |outs| == |names|
    decreases |names|
  {
    if |names| == 0 then []
    else
      var n := |names| - 1;
      var prev := SequentialOutputs(names[..n], message, init, consult);
      prev + [consult(names[n], message, Some(Seen(init, prev)))]
  }

  lemma {:induction false} SequentialPrefix(names: seq<string>, message: string, init: Ctx, consult: Consult, k: nat)
    requires k <= |names|
    ensures SequentialOutputs(names[..k], message, init, consult) ==
            SequentialOutputs(names, message, init, consult)[..k]
    decreases |names|
  {
    if k < |names| {
      var n := |names| - 1;
      assert names[..n][..k] == names[..k];
      SequentialPrefix(names[..n], message, init, consult, k);
    } else {
      assert names[..k] == names;
    }
  }

  /** The k-th specialist of a sequential run sees the caller's context, and from the second
      one on, the previous-outputs key holds exactly the outputs before it, in order. */
  lemma SequentialSeesPrevious(names: seq<string>, message: string, init: Ctx, consult: Consult, k: nat)
    requires k < |names|
    ensures var outs := SequentialOutputs(names, message, init, consult);
      outs[k] == consult(names[k], message, Some(if k == 0 then init
                                                 else init[PreviousKey := CtxPrevious(Summaries(outs[..k]))]))
  {
    var outs := SequentialOutputs(names, message, init, consult);
    SequentialPrefix(names, message, init, consult, k + 1);
    SequentialPrefix(names, message, init, consult, k);
    assert names[..k + 1][..k] == names[..k];
    assert outs[..k + 1][..k] == outs[..k];
  }

  /** `cumulative_context = context or {}`: a missing or empty dictionary is replaced by a new
      one, so only a non-empty one is shared with the caller. */
  predicate SharesCallerContext(context: Context?)
    reads context
  {
    context != null && context.entries != map[]
  }

  function InitialEntries(context: Context?): Ctx
    reads context
  {
    if context == null then map[] else context.entries
  }

  /** The context after a sequential run of `n` steps: the last output is never written back. */
  function FinalEntries(init: Ctx, outs: seq<SpecialistOutput>): Ctx
  {
    if |outs| <= 1 then init else Seen(init, outs[..|outs| - 1])
  }

  /** `after` keeps every entry of `before`, holds every name of `names`, and holds nothing
      else. */
  predicate CacheGrowsBy(before: map<string, Specialist>, after: map<string, Specialist>, names: seq<string>)
  {
    && (forall n :: n in before ==> n in after && after[n] == before[n])
    && (forall n :: n in after ==> n in before || n in names)
    && (forall k :: 0 <= k < |names| ==> names[k] in after)
  }

  lemma CacheGrowsStep(before: map<string, Specialist>, mid: map<string, Specialist>, names: seq<string>, i: nat, v: Specialist)
    requires i < |names|
    requires CacheGrowsBy(before, mid, names[..i])
    requires names[i] in mid ==> mid[names[i]] == v
    ensures CacheGrowsBy(before, mid[names[i] := v], names[..i + 1])
  {
    assert names[..i + 1] == names[..i] + [names[i]];
  }

  lemma SequentialStep(names: seq<string>, message: string, init: Ctx, consult: Consult, i: nat)
    requires i < |names|
    ensures SequentialOutputs(names[..i + 1], message, init, consult) ==
      var prev := SequentialOutputs(names[..i], message, init, consult);
      prev + [consult(names[i], message, Some(Seen(init, prev)))]
  {
    assert names[..i + 1][..i] == names[..i];
  }

  /** Writing the outputs so far into the context left by the previous step gives the
      context the next step sees; after that step the context is the one it saw. */
  lemma ContextStep(init: Ctx, outs: seq<SpecialistOutput>, o: SpecialistOutput)
    ensures (if |outs| > 0 then FinalEntries(init, outs)[PreviousKey := CtxPrevious(Summaries(outs))]
             else FinalEntries(init, outs)) == Seen(init, outs)
    ensures FinalEntries(init, outs + [o]) == Seen(init, outs)
  {
    assert (outs + [o])[..|outs|] == outs;
    if |outs| > 1 {
      var m := init[PreviousKey := CtxPrevious(Summaries(outs[..|outs| - 1]))];
      assert m[PreviousKey := CtxPrevious(Summaries(outs))] == init[PreviousKey := CtxPrevious(Summaries(outs))];
    }
  }

  /** What the sequential loop knows after `i` steps: the outputs so far, the shared
      context they leave, and the specialists cached along the way. */
  predicate SequentialState(names: seq<string>, message: string, init: Ctx, consult: Consult, i: nat,
                            outputs: seq<SpecialistOutput>, entries: Ctx,
                            before: map<string, Specialist>, after: map<string, Specialist>)
  {
    i <= |names| && outputs == SequentialOutputs(names[..i], message, init, consult)
    && entries == FinalEntries(init, outputs) && CacheGrowsBy(before, after, names[..i])
  }

  /** One step of the sequential loop: the outputs so far are written into the context, the
      specialist is consulted on it and cached as `v`. */
  lemma SequentialAdvance(names: seq<string>, message: string, init: Ctx, consult: Consult, i: nat,
                          outputs: seq<SpecialistOutput>, entries: Ctx,
                          before: map<string, Specialist>, mid: map<string, Specialist>, v: Specialist)
    requires SequentialState(names, message, init, consult, i, outputs, entries, before, mid)
    requires i < |names|
    requires names[i] in mid ==> mid[names[i]] == v
    ensures (if |outputs| > 0 then entries[PreviousKey := CtxPrevious(Summaries(outputs))] else entries)
            == Seen(init, outputs)
    ensures SequentialState(names, message, init, consult, i + 1,
                            outputs + [consult(names[i], message, Some(Seen(init, outputs)))],
                            Seen(init, outputs), before, mid[names[i] := v])
  {
    ContextStep(init, outputs, consult(names[i], message, Some(Seen(init, outputs))));
    CacheGrowsStep(before, mid, names, i, v);
    SequentialStep(names, message, init, consult, i);
  }

  /** After the last step the loop holds the whole consultation. */
  lemma SequentialDone(names: seq<string>, message: string, init: Ctx, consult: Consult,
                       outputs: seq<SpecialistOutput>, entries: Ctx,
                       before: map<string, Specialist>, after: map<string, Specialist>)
    requires SequentialState(names, message, init, consult, |names|, outputs, entries, before, after)
    ensures outputs == SequentialOutputs(names, message, init, consult)
    ensures entries == FinalEntries(init, outputs)
    ensures CacheGrowsBy(before, after, names)
  {
    assert names[..|names|] == names;
  }

  /** The context `coordinate` hands to the specialists. */
  function CallerContext(userLevel: string, projectContext: CtxValue): Ctx
  {
    map["user_level" := CtxText(userLevel), "project_context" := projectContext]
  }

  /** What the parallel pattern collects: each specialist consulted on the same context. */
  function ParallelOutputs(names: seq<string>, message: string, context: Option<Ctx>, consult: Consult)
    : (outs: seq<SpecialistOutput>)
    ensures |outs| == |names|
    ensures forall k :: 0 <= k < |names| ==> outs[k] == consult(names[k], message, context)
  {
    seq(|names|, k requires 0 <= k < |names| => consult(names[k], message, context))
  }

  /** A parallel run over two lists is the two runs side by side: no specialist's output
      depends on which other specialists run, unlike a sequential run. */
  lemma ParallelOutputsAppend(a: seq<string>, b: seq<string>, message: string, context: Option<Ctx>,
                              consult: Consult)
    ensures ParallelOutputs(a + b, message, context, consult)
            == ParallelOutputs(a, message, context, consult) + ParallelOutputs(b, message, context, consult)
  {
    var l, r := ParallelOutputs(a, message, context, consult), ParallelOutputs(b, message, context, consult);
    assert forall k :: 0 <= k < |a| + |b| ==>
      ParallelOutputs(a + b, message, context, consult)[k] == (l + r)[k];
  }

  lemma ParallelStep(names: seq<string>, message: string, context: Option<Ctx>, consult: Consult, i: nat)
    requires i < |names|
    ensures ParallelOutputs(names[..i + 1], message, context, consult)
            == ParallelOutputs(names[..i], message, context, consult) + [consult(names[i], message, context)]
  {
    assert names[..i + 1][..i] == names[..i];
  }

  // ---------- the coordinator object ----------

  class ACSCoordinator {
    var specialists: map<string, Specialist>

    /** Every cached instance is stored under its own, known name. */
    predicate Valid()
      reads this
    {
      forall n :: n in specialists ==> n in KnownSpecialists && specialists[n].name == n
    }

    constructor ()
      ensures Valid() && specialists == map[]
    {
      specialists := map[];
    }

    /** `_get_specialist`: the cached instance if there is one, else a new instance for a known
        name, cached; an unknown name raises `ValueError` and leaves the cache alone. */
    method GetSpecialist(name: string) returns (r: Result<Specialist>)
      requires Valid()
      modifies this
      ensures Valid()
      ensures name in old(specialists) ==> r == Success(old(specialists)[name]) && specialists == old(specialists)
      ensures name !in old(specialists) && name in KnownSpecialists ==>
        r.Success? && fresh(r.value) && r.value.name == name &&
        specialists == old(specialists)[name := r.value]
      ensures name !in old(specialists) && name !in KnownSpecialists ==>
        r == Failure(ValueError("Unknown specialist: " + name)) && specialists == old(specialists)
      ensures r.Success? <==> name in KnownSpecialists
      ensures r.Success? ==> specialists == old(specialists)[name := r.value]
    {
      if name in specialists {
        return Success(specialists[name]);
      }
      if name !in KnownSpecialists {
        return Failure(ValueError("Unknown specialist: " + name));
      }
      var specialist := new Specialist(name);
      specialists := specialists[name := specialist];
      return Success(specialist);
    }

    /** `execute_single`. */
    method ExecuteSingle(name: string, message: string, context: Option<Ctx>, consult: Consult)
      returns (r: Result<SpecialistOutput>)
      requires Valid()
      modifies this
      ensures Valid()
      ensures r.Success? <==> name in KnownSpecialists
      ensures r.Success? ==> r.value == consult(name, message, context)
      ensures r.Success? ==> CacheGrowsBy(old(specialists), specialists, [name])
      ensures r.Failure? ==> specialists == old(specialists)
    {
      var s := GetSpecialist(name);
      if s.Failure? {
        return Failure(s.error);
      }
      CacheGrowsStep(old(specialists), old(specialists), [name], 0, s.value);
      return Success(consult(name, message, context));
    }

    /** `execute_sequential`: each specialist is consulted with the shared context, into which
        the outputs so far are written before every step but the first. A non-empty caller
        context is that shared dictionary and is changed in place. */
    method ExecuteSequential(names: seq<string>, message: string, context: Context?, consult: Consult)
      returns (r: Result<seq<SpecialistOutput>>)
      requires Valid()
      modifies this, context
      ensures Valid()
      ensures r.Success? <==> forall i :: 0 <= i < |names| ==> names[i] in KnownSpecialists
      ensures r.Success? ==> r.value == SequentialOutputs(names, message, old(InitialEntries(context)), consult)
      ensures r.Failure? ==> r.error.ValueError?
      ensures r.Success? && old(SharesCallerContext(context)) ==>
        context.entries == FinalEntries(old(context.entries), r.value)
      ensures !old(SharesCallerContext(context)) && context != null ==> context.entries == old(context.entries)
      ensures r.Success? ==> CacheGrowsBy(old(specialists), specialists, names)
    {
      var init := InitialEntries(context);
      var cumulative: Context;
      if SharesCallerContext(context) {
        cumulative := context;
      } else {
        cumulative := new Context(map[]);
      }
      r := ConsultInTurn(names, message, init, cumulative, consult);
    }

    /** The loop of `execute_sequential`, on the dictionary the steps share. */
    method ConsultInTurn(names: seq<string>, message: string, init: Ctx, cumulative: Context, consult: Consult)
      returns (r: Result<seq<SpecialistOutput>>)
      requires Valid() && cumulative.entries == init
      modifies this, cumulative
      ensures Valid()
      ensures r.Success? <==> forall i :: 0 <= i < |names| ==> names[i] in KnownSpecialists
      ensures r.Success? ==> r.value == SequentialOutputs(names, message, init, consult)
      ensures r.Failure? ==> r.error.ValueError?
      ensures r.Success? ==> cumulative.entries == FinalEntries(init, r.value)
      ensures r.Success? ==> CacheGrowsBy(old(specialists), specialists, names)
    {
      var outputs: seq<SpecialistOutput> := [];
      var i := 0;
      while i < |names|
        invariant Valid()
        invariant SequentialState(names, message, init, consult, i, outputs, cumulative.entries,
                                  old(specialists), specialists)
      {
        ghost var entries := cumulative.entries;
        if |outputs| > 0 {
          cumulative.entries := cumulative.entries[PreviousKey := CtxPrevious(Summaries(outputs))];
        }
        ghost var before := specialists;
        var s := GetSpecialist(names[i]);
        if s.Failure? {
          return Failure(s.error);
        }
        SequentialAdvance(names, message, init, consult, i, outputs, entries, old(specialists), before, s.value);
        var output := consult(names[i], message, Some(cumulative.entries));
        outputs := outputs + [output];
        i := i + 1;
      }
      SequentialDone(names, message, init, consult, outputs, cumulative.entries, old(specialists), specialists);
      return Success(outputs);
    }

    /** `execute_parallel`: every specialist sees the same context, and the outputs come back
        in list order. */
    method ExecuteParallel(names: seq<string>, message: string, context: Option<Ctx>, consult: Consult)
      returns (r: Result<seq<SpecialistOutput>>)
      requires Valid()
      modifies this
      ensures Valid()
      ensures r.Success? <==> forall i :: 0 <= i < |names| ==> names[i] in KnownSpecialists
      ensures r.Failure? ==> r.error.ValueError?
      ensures r.Success? ==> r.value == ParallelOutputs(names, message, context, consult)
      ensures r.Success? ==> CacheGrowsBy(old(specialists), specialists, names)
    {
      var outputs: seq<SpecialistOutput> := [];
      var i := 0;
      while i < |names|
        invariant 0 <= i <= |names|
        invariant Valid()
        invariant outputs == ParallelOutputs(names[..i], message, context, consult)
        invariant CacheGrowsBy(old(specialists), specialists, names[..i])
      {
        ghost var before := specialists;
        var s := GetSpecialist(names[i]);
        if s.Failure? {
          return Failure(s.error);
        }
        CacheGrowsStep(old(specialists), before, names, i, s.value);
        ParallelStep(names, message, context, consult, i);
        outputs := outputs + [consult(names[i], message, context)];
        i := i + 1;
      }
      assert names[..i] == names;
      return Success(outputs);
    }

    /** The execution and answer steps of `coordinate`, given the routing language model's text
        (`decisionText`); `synthesize` stands for the synthesis call. */
    method Coordinate(userMessage: string, userLevel: string, projectContext: CtxValue,
                      decisionText: string, consult: Consult,
                      synthesize: (string, seq<SpecialistOutput>, RoutingDecision) -> string)
      returns (r: Result<string>)
      requires Valid()
      modifies this
      ensures Valid()
      ensures r.Success? <==> ParseRoutingDecision(decisionText, userMessage).pattern != Iterative
      ensures r.Failure? ==> r.error == ValueError("Unsupported pattern: CollaborationPattern.ITERATIVE")
      ensures var d := ParseRoutingDecision(decisionText, userMessage);
        d.pattern == Single ==>
          r.value == consult(d.specialists[0], userMessage, Some(CallerContext(userLevel, projectContext))).output
      ensures var d := ParseRoutingDecision(decisionText, userMessage);
        d.pattern == Sequential ==>
          r.value == synthesize(userMessage, SequentialOutputs(d.specialists, userMessage,
                                                              CallerContext(userLevel, projectContext), consult), d)
      ensures var d := ParseRoutingDecision(decisionText, userMessage);
        d.pattern == Parallel ==>
          r.value == synthesize(userMessage, ParallelOutputs(d.specialists, userMessage,
                                                            Some(CallerContext(userLevel, projectContext)), consult), d)
    {
      var decision := ParseRoutingDecision(decisionText, userMessage);
      var ctx := CallerContext(userLevel, projectContext);
      var outputs: seq<SpecialistOutput>;
      match decision.pattern {
        case Single =>
          RoutingIsWellFormed(decisionText, userMessage);
          var single := ExecuteSingle(decision.specialists[0], userMessage, Some(ctx), consult);
          assert single.Success?;
          outputs := [single.value];
        case Sequential =>
          RoutingIsWellFormed(decisionText, userMessage);
          var shared := new Context(ctx);
          var run := ExecuteSequential(decision.specialists, userMessage, shared, consult);
          assert run.Success?;
          outputs := run.value;
        case Parallel =>
          RoutingIsWellFormed(decisionText, userMessage);
          var run := ExecuteParallel(decision.specialists, userMessage, Some(ctx), consult);
          assert run.Success?;
          outputs := run.value;
        case Iterative =>
          return Failure(ValueError("Unsupported pattern: CollaborationPattern.ITERATIVE"));
      }
      if |outputs| == 1 {
        return Success(outputs[0].output);
      }
      return Success(synthesize(userMessage, outputs, decision));
    }
  }
}
