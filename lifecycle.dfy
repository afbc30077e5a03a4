/**
 * The research lifecycle manager: a table of research projects keyed by id, five phase
 * operations that update a project's fields, mark its milestones and move its phase, and a
 * progress summary.
 *
 * The loaded configuration is a value (`Config`) given to the constructor; dates are not
 * modelled. Projects are values in the table, so the method updating one rebinds its id.
 */
module Lifecycle {
  import opened Common
  import opened Text

  datatype Phase = QuestionFormulation | StudyDesign | DataAnalysis | ManuscriptWriting | Submission

  /** The enumeration's string value. */
  function PhaseValue(p: Phase): string
  {
    match p
    case QuestionFormulation => "question_formulation"
    case StudyDesign => "study_design"
    case DataAnalysis => "data_analysis"
    case ManuscriptWriting => "manuscript_writing"
    case Submission => "submission"
  }

  /** Distinct phases have distinct values (they even differ in length). */
  lemma PhaseValueInjective()
    ensures forall p, q :: PhaseValue(p) == PhaseValue(q) ==> p == q
  {
    forall p, q | PhaseValue(p) == PhaseValue(q)
      ensures p == q
    {
      assert |PhaseValue(p)| == |PhaseValue(q)|;
    }
  }

  /** `ResearchPhase(value)`: the phase with that value, or the enumeration's ValueError. */
  function PhaseFromValue(s: string): (r: Result<Phase>)
    ensures r.Success? ==> PhaseValue(r.value) == s
    ensures forall p :: PhaseValue(p) == s ==> r == Success(p)
    ensures r.Failure? ==> r.error == ValueError("'" + s + "' is not a valid ResearchPhase")
  {
    PhaseValueInjective();
    if s == "question_formulation" then Success(QuestionFormulation)
    else if s == "study_design" then Success(StudyDesign)
    else if s == "data_analysis" then Success(DataAnalysis)
    else if s == "manuscript_writing" then Success(ManuscriptWriting)
    else if s == "submission" then Success(Submission)
    else
      assert forall p :: PhaseValue(p) != s;
      Failure(ValueError("'" + s + "' is not a valid ResearchPhase"))
  }

  datatype Milestone = Milestone(name: string, phase: Phase, completed: bool)

  datatype Project = Project(
    projectId: string,
    researchQuestion: Option<string>,
    picoElements: map<string, string>,
    finerScores: map<string, real>,
    studyDesign: Option<string>,
    protocolStatus: string,
    sampleSize: Option<int>,
    ethicsStatus: string,
    dataCollectionStatus: string,
    analysisPlan: Option<string>,
    manuscriptStatus: string,
    targetJournal: Option<string>,
    wordCount: int,
    submissionStatus: string,
    revisionRounds: int,
    currentPhase: Phase,
    milestones: seq<Milestone>)

  /** A project as the dataclass defaults leave it. */
  function NewProject(id: string, milestones: seq<Milestone>): Project
  {
    Project(id, None, map[], map[], None, "not_started", None, "pending", "not_started", None,
            "not_started", None, 0, "not_submitted", 0, QuestionFormulation, milestones)
  }

  // ---------- milestones from the configuration ----------

  /** One entry of the configured milestone list, a mapping read with `[...]`. */
  type MilestoneDef = map<string, string>

  function ParseMilestone(def: MilestoneDef): (r: Result<Milestone>)
    ensures r.Success? <==> "milestone" in def && "phase" in def && PhaseFromValue(def["phase"]).Success?
    ensures r.Success? ==> r.value.name == def["milestone"] && !r.value.completed
                           && PhaseValue(r.value.phase) == def["phase"]
    ensures "milestone" !in def ==> r == Failure(KeyError("milestone"))
    ensures "milestone" in def && "phase" !in def ==> r == Failure(KeyError("phase"))
  {
    if "milestone" !in def then Failure(KeyError("milestone"))
    else if "phase" !in def then Failure(KeyError("phase"))
    else match PhaseFromValue(def["phase"])
      case Failure(e) => Failure(e)
      case Success(p) => Success(Milestone(def["milestone"], p, false))
  }

  /** The milestones `create_project` builds: one uncompleted milestone per configured entry,
      named and phased by it, in configuration order; the first bad entry raises. */
  lemma CreatedMilestones(defs: seq<MilestoneDef>)
    ensures MapAll(defs, ParseMilestone).Success? <==>
      forall k :: 0 <= k < |defs| ==> "milestone" in defs[k] && "phase" in defs[k]
                                      && PhaseFromValue(defs[k]["phase"]).Success?
    ensures MapAll(defs, ParseMilestone).Success? ==>
      var ms := MapAll(defs, ParseMilestone).value;
      |ms| == |defs| &&
      forall k :: 0 <= k < |defs| ==>
        ms[k].name == defs[k]["milestone"] && !ms[k].completed && PhaseValue(ms[k].phase) == defs[k]["phase"]
  {
    MapAllSpec(defs, ParseMilestone);
  }

  // ---------- marking milestones ----------

  const RqFormulated := "RQ formulated"
  const ProtocolComplete := "Protocol complete"
  const AnalysisComplete := "Analysis complete"
  const ManuscriptDrafted := "Manuscript drafted"

  /** Every milestone with the given name completed, the others as they were. */
  function Marked(ms: seq<Milestone>, name: string): seq<Milestone>
  {
    if |ms| == 0 then []
    else
      var last := ms[|ms| - 1];
      Marked(ms[..|ms| - 1], name) + [if last.name == name then last.(completed := true) else last]
  }

  /** Marking keeps the number, the order, the names and the phases of the milestones, sets
      `completed` on the named ones and never clears it. */
  lemma {:induction false} MarkedSpec(ms: seq<Milestone>, name: string)
    ensures |Marked(ms, name)| == |ms|
    ensures forall k :: 0 <= k < |ms| ==>
      Marked(ms, name)[k] == ms[k].(completed := ms[k].completed || ms[k].name == name)
  {
    if |ms| > 0 {
      MarkedSpec(ms[..|ms| - 1], name);
    }
  }

  /** Marking the same name twice is marking it once. */
  lemma MarkedIdempotent(ms: seq<Milestone>, name: string)
    ensures Marked(Marked(ms, name), name) == Marked(ms, name)
  {
    MarkedSpec(ms, name);
    MarkedSpec(Marked(ms, name), name);
  }

  /** The order in which two names are marked does not matter. */
  lemma MarkedCommute(ms: seq<Milestone>, a: string, b: string)
    ensures Marked(Marked(ms, a), b) == Marked(Marked(ms, b), a)
  {
    MarkedSpec(ms, a);
    MarkedSpec(ms, b);
    MarkedSpec(Marked(ms, a), b);
    MarkedSpec(Marked(ms, b), a);
  }

  /** The loop each phase operation runs over the project's milestones. */
  method MarkMilestones(ms: seq<Milestone>, name: string) returns (r: seq<Milestone>)
    ensures r == Marked(ms, name)
  {
    r := [];
    var i := 0;
    while i < |ms|
      invariant 0 <= i <= |ms|
      invariant r == Marked(ms[..i], name)
    {
      var m := ms[i];
      if m.name == name {
        m := m.(completed := true);
      }
      assert ms[..i + 1][..i] == ms[..i];
      r := r + [m];
      i := i + 1;
    }
    assert ms[..i] == ms;
  }

  // ---------- progress ----------

  /** The number of completed milestones. */
  function CompletedCount(ms: seq<Milestone>): (n: nat)
    ensures n <= |ms|
    ensures n == |ms| <==> forall k :: 0 <= k < |ms| ==> ms[k].completed
  {
    if |ms| == 0 then 0
    else
      assert forall k :: 0 <= k < |ms| - 1 ==> ms[..|ms| - 1][k] == ms[k];
      CompletedCount(ms[..|ms| - 1]) + if ms[|ms| - 1].completed then 1 else 0
  }

  const AllComplete := "All complete!"

  /** The name of the first uncompleted milestone, else "All complete!". */
  function NextMilestone(ms: seq<Milestone>): (n: string)
    ensures (forall k :: 0 <= k < |ms| ==> ms[k].completed) ==> n == AllComplete
    ensures (exists k :: 0 <= k < |ms| && !ms[k].completed) ==>
      exists k :: 0 <= k < |ms| && !ms[k].completed && n == ms[k].name
        && forall j :: 0 <= j < k ==> ms[j].completed
  {
    if |ms| == 0 then AllComplete
    else if !ms[0].completed then ms[0].name
    else
      var n := NextMilestone(ms[1..]);
      assert forall k :: 1 <= k < |ms| ==> ms[1..][k - 1] == ms[k];
      if exists k :: 0 <= k < |ms| && !ms[k].completed then
        var k :| 0 <= k < |ms| && !ms[k].completed;
        assert !ms[1..][k - 1].completed;
        n
      else n
  }

  /** Marking never lowers the completed count. */
  lemma {:induction false} MarkedCountGrows(ms: seq<Milestone>, name: string)
    ensures CompletedCount(ms) <= CompletedCount(Marked(ms, name))
  {
    if |ms| > 0 {
      MarkedCountGrows(ms[..|ms| - 1], name);
      MarkedSpec(ms, name);
      assert Marked(ms, name)[..|ms| - 1] == Marked(ms[..|ms| - 1], name);
    }
  }

  datatype Progress = Progress(
    projectId: string,
    currentPhase: string,
    milestonesCompleted: nat,
    totalMilestones: nat,
    progressPercentage: real,
    nextMilestone: string,
    researchQuestion: Option<string>,
    studyDesign: Option<string>,
    targetJournal: Option<string>)

  function Percentage(completed: nat, total: nat): real
  {
    if total > 0 then (completed as real) / (total as real) * 100.0 else 0.0
  }

  function ProgressOf(id: string, p: Project): Progress
  {
    Progress(id, PhaseValue(p.currentPhase), CompletedCount(p.milestones), |p.milestones|,
             Percentage(CompletedCount(p.milestones), |p.milestones|), NextMilestone(p.milestones),
             p.researchQuestion, p.studyDesign, p.targetJournal)
  }

  /** The summary's numbers: at most all milestones are completed, the percentage lies in
      [0, 100], and it is 100 exactly when there are milestones and all are completed, in
      which case the next milestone reads "All complete!". */
  lemma ProgressBounds(id: string, p: Project)
    ensures var r := ProgressOf(id, p);
      && r.milestonesCompleted <= r.totalMilestones == |p.milestones|
      && 0.0 <= r.progressPercentage <= 100.0
      && (r.progressPercentage == 100.0 <==>
            |p.milestones| > 0 && forall k :: 0 <= k < |p.milestones| ==> p.milestones[k].completed)
      && (r.progressPercentage == 100.0 ==> r.nextMilestone == AllComplete)
  {
    PercentageBounds(CompletedCount(p.milestones), |p.milestones|);
  }

  lemma PercentageBounds(c: nat, t: nat)
    requires c <= t
    ensures 0.0 <= Percentage(c, t) <= 100.0
    ensures Percentage(c, t) == 100.0 <==> t > 0 && c == t
  {
    if t > 0 {
      var q := (c as real) / (t as real);
      assert q * (t as real) == c as real;
      assert 0.0 <= q;
      if c == t {
        assert q == 1.0;
      } else {
        assert (1.0 - q) * (t as real) == (t - c) as real;
        assert (t - c) as real > 0.0;
        assert 1.0 - q > 0.0;
      }
    }
  }

  // ---------- the manager ----------

  /** The parts of the loaded configuration the operations read. */
  datatype Config = Config(
    milestonesTracking: seq<MilestoneDef>,
    reportingStandards: map<string, string>,
    manuscriptStructure: seq<map<string, string>>)

  const FinerScores: map<string, real> :=
    map["Feasible" := 4.0, "Interesting" := 4.5, "Novel" := 3.5, "Ethical" := 5.0, "Relevant" := 4.0]

  function NotFound(id: string): Error
  {
    ValueError("Project not found: " + id)
  }

  /** Python truthiness of the optional PICO mapping. */
  predicate NonEmpty(pico: Option<map<string, string>>)
  {
    pico.Some? && |pico.value| > 0
  }

  /** The project after `formulate_question`. */
  function Formulated(p: Project, question: string, pico: Option<map<string, string>>): Project
  {
    p.(researchQuestion := Some(question),
       picoElements := if NonEmpty(pico) then pico.value else p.picoElements,
       finerScores := FinerScores,
       milestones := Marked(p.milestones, RqFormulated),
       currentPhase := StudyDesign)
  }

  /** The project after `design_study`. */
  function Designed(p: Project, design: string, sampleSize: Option<int>): Project
  {
    p.(studyDesign := Some(design), sampleSize := sampleSize, protocolStatus := "draft",
       milestones := Marked(p.milestones, ProtocolComplete))
  }

  /** The project after `analyze_data`. */
  function Analyzed(p: Project): Project
  {
    p.(milestones := Marked(p.milestones, AnalysisComplete), currentPhase := ManuscriptWriting)
  }

  /** The project after `write_manuscript`. */
  function Written(p: Project): Project
  {
    p.(milestones := Marked(p.milestones, ManuscriptDrafted), currentPhase := Submission)
  }

  /** The project after `prepare_submission`. */
  function Submitted(p: Project, journal: string): Project
  {
    p.(targetJournal := Some(journal))
  }

  /** The reporting standard for a study design: the configured one for its lower-cased
      name, else STROBE. */
  function ReportingStandard(standards: map<string, string>, design: string): (s: string)
    ensures Lower(design) in standards ==> s == standards[Lower(design)]
    ensures Lower(design) !in standards ==> s == "STROBE"
  {
    if Lower(design) in standards then standards[Lower(design)] else "STROBE"
  }

  /** The lookup does not depend on the case of the design's name. */
  lemma ReportingStandardIgnoresCase(standards: map<string, string>, a: string, b: string)
    requires Lower(a) == Lower(b)
    ensures ReportingStandard(standards, a) == ReportingStandard(standards, b)
    ensures ReportingStandard(standards, Lower(a)) == ReportingStandard(standards, a)
  {
    LowerIdempotent(a);
  }

  /** The `for ... break` section search of `write_manuscript`: the first configured section
      whose name matches the request case-insensitively. An entry without a `section` key
      that is reached raises KeyError. */
  function FirstSection(structure: seq<map<string, string>>, section: string)
    : Result<Option<map<string, string>>>
  {
    if |structure| == 0 then Success(None)
    else if "section" !in structure[0] then Failure(KeyError("section"))
    else if Lower(structure[0]["section"]) == Lower(section) then Success(Some(structure[0]))
    else FirstSection(structure[1..], section)
  }

  predicate SectionMatches(sec: map<string, string>, section: string)
  {
    "section" in sec && Lower(sec["section"]) == Lower(section)
  }

  /** What the search finds: a matching entry with every earlier entry keyed and unmatched;
      nothing when every entry is keyed and none matches; KeyError at the first unkeyed
      entry reached. */
  lemma {:induction false} FirstSectionSpec(structure: seq<map<string, string>>, section: string)
    ensures var r := FirstSection(structure, section);
      && (r.Success? && r.value.Some? ==>
            exists i :: 0 <= i < |structure| && r.value.value == structure[i]
              && SectionMatches(structure[i], section)
              && forall j :: 0 <= j < i ==> "section" in structure[j] && !SectionMatches(structure[j], section))
      && (r == Success(None) <==>
            forall j :: 0 <= j < |structure| ==> "section" in structure[j] && !SectionMatches(structure[j], section))
      && (r.Failure? ==> r.error == KeyError("section"))
  {
    if |structure| > 0 && "section" in structure[0] && !SectionMatches(structure[0], section) {
      var rest := structure[1..];
      FirstSectionSpec(rest, section);
      assert forall j :: 1 <= j < |structure| ==> structure[j] == rest[j - 1];
      var r := FirstSection(rest, section);
      if r.Success? && r.value.Some? {
        var i :| 0 <= i < |rest| && r.value.value == rest[i] && SectionMatches(rest[i], section)
              && forall j :: 0 <= j < i ==> "section" in rest[j] && !SectionMatches(rest[j], section);
        assert structure[i + 1] == rest[i];
      }
    }
  }

  /** The word limit line of the writing guidance. */
  function WordLimit(guidance: Option<map<string, string>>): string
  {
    "Word limit: " + if guidance.Some? && |guidance.value| > 0 && "word_limit" in guidance.value
                     then guidance.value["word_limit"] else "N/A"
  }

  /** `str` of an optional string, as an f-string prints it. */
  function OptionText(o: Option<string>): string
  {
    if o.Some? then o.value else "None"
  }

  datatype Formulation = Formulation(researchQuestion: string, picoElements: map<string, string>,
                                     finerScores: map<string, real>, recommendations: seq<string>)
  datatype DesignGuidance = DesignGuidance(studyDesign: string, sampleSize: Option<int>,
                                           reportingStandard: string, recommendations: seq<string>)
  datatype WritingGuidance = WritingGuidance(section: string, guidance: Option<map<string, string>>,
                                             reportingStandard: string, recommendations: seq<string>)
  datatype SubmissionGuidance = SubmissionGuidance(targetJournal: string, recommendations: seq<string>)

  const FormulationAdvice := ["PICO framework suggests clear population and outcome",
                              "FINER assessment indicates strong feasibility",
                              "Next step: Design study protocol"]
  const AnalysisAdvice := ["Follow pre-specified analysis plan", "Check all assumptions",
                           "Perform sensitivity analyses", "Prepare Table 1 (baseline characteristics)"]
  const SubmissionAdvice := ["Complete all checklist items", "Ensure manuscript follows journal format",
                             "Include reporting checklist"]

  class ResearchLifecycleManager {
    const config: Config
    var projects: map<string, Project>

    constructor(config: Config)
      ensures this.config == config && projects == map[]
    {
      this.config := config;
      projects := map[];
    }

    /** `create_project`: builds the configured milestones and stores a fresh project under
        the id, replacing any project already there. A bad milestone entry raises and
        stores nothing. */
    method CreateProject(projectId: string) returns (r: Result<Project>)
      modifies this
      ensures r.Success? <==> MapAll(config.milestonesTracking, ParseMilestone).Success?
      ensures r.Success? ==> r.value == NewProject(projectId, MapAll(config.milestonesTracking, ParseMilestone).value)
                             && projects == old(projects)[projectId := r.value]
      ensures r.Failure? ==> r.error == MapAll(config.milestonesTracking, ParseMilestone).error
                             && projects == old(projects)
    {
      var defs := config.milestonesTracking;
      var ms: seq<Milestone> := [];
      var i := 0;
      while i < |defs|
        invariant 0 <= i <= |defs|
        invariant MapAll(defs[..i], ParseMilestone) == Success(ms)
      {
        var m := ParseMilestone(defs[i]);
        assert defs[..i + 1][..i] == defs[..i];
        if m.Failure? {
          MapAllPrefixFails(defs, ParseMilestone, i + 1);
          return Failure(m.error);
        }
        ms := ms + [m.value];
        i := i + 1;
      }
      assert defs[..i] == defs;
      var project := NewProject(projectId, ms);
      projects := projects[projectId := project];
      return Success(project);
    }

    /** `formulate_question`. */
    method FormulateQuestion(projectId: string, question: string, pico: Option<map<string, string>>)
      returns (r: Result<Formulation>)
      modifies this
      ensures r.Failure? <==> projectId !in old(projects)
      ensures r.Failure? ==> r.error == NotFound(projectId) && projects == old(projects)
      ensures r.Success? ==>
        projects == old(projects)[projectId := Formulated(old(projects)[projectId], question, pico)]
        && r.value == Formulation(question, projects[projectId].picoElements, FinerScores, FormulationAdvice)
    {
      if projectId !in projects {
        return Failure(NotFound(projectId));
      }
      var p := projects[projectId];
      var ms := MarkMilestones(p.milestones, RqFormulated);
      var pe := if NonEmpty(pico) then pico.value else p.picoElements;
      p := p.(researchQuestion := Some(question), picoElements := pe, finerScores := FinerScores,
              milestones := ms, currentPhase := StudyDesign);
      projects := projects[projectId := p];
      return Success(Formulation(question, pe, FinerScores, FormulationAdvice));
    }

    /** `design_study`. */
    method DesignStudy(projectId: string, design: string, sampleSize: Option<int>)
      returns (r: Result<DesignGuidance>)
      modifies this
      ensures r.Failure? <==> projectId !in old(projects)
      ensures r.Failure? ==> r.error == NotFound(projectId) && projects == old(projects)
      ensures r.Success? ==>
        projects == old(projects)[projectId := Designed(old(projects)[projectId], design, sampleSize)]
        && var std := ReportingStandard(config.reportingStandards, design);
           r.value == DesignGuidance(design, sampleSize, std,
                                     ["Follow " + std + " guidelines for reporting",
                                      "Complete protocol before data collection", "Obtain ethics approval"])
    {
      if projectId !in projects {
        return Failure(NotFound(projectId));
      }
      var p := projects[projectId];
      var std := if Lower(design) in config.reportingStandards
                 then config.reportingStandards[Lower(design)] else "STROBE";
      var ms := MarkMilestones(p.milestones, ProtocolComplete);
      p := p.(studyDesign := Some(design), sampleSize := sampleSize, protocolStatus := "draft",
              milestones := ms);
      projects := projects[projectId := p];
      return Success(DesignGuidance(design, sampleSize, std,
                                    ["Follow " + std + " guidelines for reporting",
                                     "Complete protocol before data collection", "Obtain ethics approval"]));
    }

    /** `analyze_data`; the analysis type is accepted and not used. */
    method AnalyzeData(projectId: string, analysisType: string) returns (r: Result<seq<string>>)
      modifies this
      ensures r.Failure? <==> projectId !in old(projects)
      ensures r.Failure? ==> r.error == NotFound(projectId) && projects == old(projects)
      ensures r.Success? ==> projects == old(projects)[projectId := Analyzed(old(projects)[projectId])]
                             && r.value == AnalysisAdvice
    {
      if projectId !in projects {
        return Failure(NotFound(projectId));
      }
      var p := projects[projectId];
      var ms := MarkMilestones(p.milestones, AnalysisComplete);
      projects := projects[projectId := p.(milestones := ms, currentPhase := ManuscriptWriting)];
      return Success(AnalysisAdvice);
    }

    /** The section search loop of `write_manuscript`. */
    method FindSection(section: string) returns (r: Result<Option<map<string, string>>>)
      ensures r == FirstSection(config.manuscriptStructure, section)
    {
      var structure := config.manuscriptStructure;
      var i := 0;
      while i < |structure|
        invariant 0 <= i <= |structure|
        invariant FirstSection(structure, section) == FirstSection(structure[i..], section)
      {
        assert structure[i..][1..] == structure[i + 1..];
        if "section" !in structure[i] {
          return Failure(KeyError("section"));
        }
        if Lower(structure[i]["section"]) == Lower(section) {
          return Success(Some(structure[i]));
        }
        i := i + 1;
      }
      return Success(None);
    }

    /** `write_manuscript`: a KeyError from the section search leaves the project as it was. */
    method WriteManuscript(projectId: string, section: string) returns (r: Result<WritingGuidance>)
      modifies this
      ensures r.Failure? <==> projectId !in old(projects) || FirstSection(config.manuscriptStructure, section).Failure?
      ensures r.Failure? ==> projects == old(projects)
      ensures projectId !in old(projects) ==> r == Failure(NotFound(projectId))
      ensures r.Success? ==>
        projects == old(projects)[projectId := Written(old(projects)[projectId])]
        && var g := FirstSection(config.manuscriptStructure, section).value;
           r.value == WritingGuidance(section, g,
                                      "Follow " + OptionText(old(projects)[projectId].studyDesign) + " checklist",
                                      [WordLimit(g), "Use clear, concise language", "Follow IMRaD structure"])
    {
      if projectId !in projects {
        return Failure(NotFound(projectId));
      }
      var found := FindSection(section);
      if found.Failure? {
        return Failure(found.error);
      }
      var p := projects[projectId];
      var ms := MarkMilestones(p.milestones, ManuscriptDrafted);
      projects := projects[projectId := p.(milestones := ms, currentPhase := Submission)];
      var g := found.value;
      var limit := if g.Some? && |g.value| > 0 && "word_limit" in g.value then g.value["word_limit"] else "N/A";
      return Success(WritingGuidance(section, g, "Follow " + OptionText(p.studyDesign) + " checklist",
                                     ["Word limit: " + limit, "Use clear, concise language",
                                      "Follow IMRaD structure"]));
    }

    /** `prepare_submission`: records the target journal, marks nothing and keeps the phase. */
    method PrepareSubmission(projectId: string, journal: string) returns (r: Result<SubmissionGuidance>)
      modifies this
      ensures r.Failure? <==> projectId !in old(projects)
      ensures r.Failure? ==> r.error == NotFound(projectId) && projects == old(projects)
      ensures r.Success? ==> projects == old(projects)[projectId := Submitted(old(projects)[projectId], journal)]
                             && r.value == SubmissionGuidance(journal, SubmissionAdvice)
    {
      if projectId !in projects {
        return Failure(NotFound(projectId));
      }
      projects := projects[projectId := projects[projectId].(targetJournal := Some(journal))];
      return Success(SubmissionGuidance(journal, SubmissionAdvice));
    }

    /** `get_progress`. */
    function GetProgress(projectId: string): (r: Result<Progress>)
      reads this
      ensures r.Failure? <==> projectId !in projects
      ensures r.Failure? ==> r.error == NotFound(projectId)
      ensures r.Success? ==> r.value == ProgressOf(projectId, projects[projectId])
      ensures r.Success? ==> r.value.milestonesCompleted <= r.value.totalMilestones
                             && 0.0 <= r.value.progressPercentage <= 100.0
      ensures r.Success? ==> (r.value.progressPercentage == 100.0 <==>
                                |projects[projectId].milestones| > 0 &&
                                forall k :: 0 <= k < |projects[projectId].milestones| ==>
                                  projects[projectId].milestones[k].completed)
    {
      if projectId !in projects then Failure(NotFound(projectId))
      else
        ProgressBounds(projectId, projects[projectId]);
        Success(ProgressOf(projectId, projects[projectId]))
    }
  }

  // ---------- properties of the lifecycle ----------

  /** Every operation that marks a milestone keeps the milestone count and never clears a
      completed flag; the phase it sets does not depend on the phase before. */
  lemma {:induction false} OperationsKeepMilestones(p: Project, question: string,
                                                    pico: Option<map<string, string>>,
                                                    design: string, size: Option<int>)
    ensures |Formulated(p, question, pico).milestones| == |p.milestones|
    ensures |Designed(p, design, size).milestones| == |p.milestones|
    ensures |Analyzed(p).milestones| == |p.milestones|
    ensures |Written(p).milestones| == |p.milestones|
    ensures forall k :: 0 <= k < |p.milestones| && p.milestones[k].completed ==>
      Formulated(p, question, pico).milestones[k].completed && Designed(p, design, size).milestones[k].completed
      && Analyzed(p).milestones[k].completed && Written(p).milestones[k].completed
  {
    MarkedSpec(p.milestones, RqFormulated);
    MarkedSpec(p.milestones, ProtocolComplete);
    MarkedSpec(p.milestones, AnalysisComplete);
    MarkedSpec(p.milestones, ManuscriptDrafted);
  }

  predicate StandardMilestones(ms: seq<Milestone>)
  {
    forall k :: 0 <= k < |ms| ==>
      ms[k].name in {RqFormulated, ProtocolComplete, AnalysisComplete, ManuscriptDrafted}
  }

  /** Running the four marking operations in lifecycle order on a project whose configured
      milestones all carry the standard names completes every milestone, so a project with
      milestones reports 100 percent, ending in SUBMISSION. */
  lemma {:induction false} FullLifecycleCompletes(p: Project, question: string,
                                                  pico: Option<map<string, string>>,
                                                  design: string, size: Option<int>, journal: string)
    requires StandardMilestones(p.milestones) && |p.milestones| > 0
    ensures var q := Submitted(Written(Analyzed(Designed(Formulated(p, question, pico), design, size))), journal);
      && q.currentPhase == Submission
      && ProgressOf(p.projectId, q).progressPercentage == 100.0
      && ProgressOf(p.projectId, q).nextMilestone == AllComplete
  {
    var q := Submitted(Written(Analyzed(Designed(Formulated(p, question, pico), design, size))), journal);
    LifecycleMarksAll(p, question, pico, design, size, journal);
    StandardMarkedComplete(p.milestones);
    ProgressBounds(p.projectId, q);
  }

  /** The four operations mark the four standard milestones in turn and end in SUBMISSION. */
  lemma LifecycleMarksAll(p: Project, question: string, pico: Option<map<string, string>>,
                          design: string, size: Option<int>, journal: string)
    ensures var q := Submitted(Written(Analyzed(Designed(Formulated(p, question, pico), design, size))), journal);
      && q.currentPhase == Submission
      && q.milestones == Marked(Marked(Marked(Marked(p.milestones, RqFormulated), ProtocolComplete),
                                       AnalysisComplete), ManuscriptDrafted)
  {
  }

  /** Marking the four standard names completes every milestone that carries one. */
  lemma StandardMarkedComplete(ms: seq<Milestone>)
    requires StandardMilestones(ms)
    ensures var m4 := Marked(Marked(Marked(Marked(ms, RqFormulated), ProtocolComplete),
                                    AnalysisComplete), ManuscriptDrafted);
      |m4| == |ms| && forall k :: 0 <= k < |m4| ==> m4[k].completed
  {
    var m1 := Marked(ms, RqFormulated);
    var m2 := Marked(m1, ProtocolComplete);
    var m3 := Marked(m2, AnalysisComplete);
    var m4 := Marked(m3, ManuscriptDrafted);
    MarkedSpec(ms, RqFormulated);
    MarkedSpec(m1, ProtocolComplete);
    MarkedSpec(m2, AnalysisComplete);
    MarkedSpec(m3, ManuscriptDrafted);
    forall k | 0 <= k < |m4|
      ensures m4[k].completed
    {
      assert m4[k].name == ms[k].name;
    }
  }
}
