/** The text of the vector SOAP report (`drawSOAPReport` in
    SoapAI/Services/PDFExportService.swift): the bodies of its sections,
    the rule that skips a blank section, the page-break rule and the order
    in which the sections are drawn. Text measurement is a pair of given
    height functions; fonts, colours and the drawing itself are not part of
    this model. */
module PdfSections {
  import opened Wrappers
  import opened TextOps
  import opened Reports

  /** The physical exam of the structured Subjective/Objective report the
      PDF export reads. */
  datatype ObjectiveExam = ObjectiveExam(
    heent: string,
    lungs: string,
    heart: string,
    abdomen: string,
    extremities: string,
    neuro: string,
    other: string)

  /** One problem of the plan and its actions. */
  datatype PlanProblem = PlanProblem(problem: string, actions: seq<string>)

  /** The Subjective/Objective report in the shape the PDF export uses. */
  datatype StructuredSO = StructuredSO(subjective: string, objective: ObjectiveExam)

  /** The Assessment/Plan report in the shape the PDF export uses. */
  datatype StructuredAP = StructuredAP(assessment: string, plan: seq<PlanProblem>)

  /** The bullet every listed item is drawn with. */
  const Bullet := "\U{2022} "

  // ---------------------------------------------------------------------
  // Bulleted lists

  /** "• item" for each item, in order. */
  function Bulleted(items: seq<string>): seq<string> {
    if items == [] then [] else Bulleted(items[..|items| - 1]) + [Bullet + items[|items| - 1]]
  }

  /** One line per item, each the bullet followed by that item. */
  lemma {:induction false} BulletedLines(items: seq<string>)
    ensures |Bulleted(items)| == |items|
    ensures forall i :: 0 <= i < |items| ==> Bulleted(items)[i] == Bullet + items[i]
  {
    if items != [] {
      BulletedLines(items[..|items| - 1]);
    }
  }

  /** The `for item in …` loops: `lines` with one bulleted line per item. */
  method AppendBullets(lines: seq<string>, items: seq<string>) returns (r: seq<string>)
    ensures r == lines + Bulleted(items)
  {
    r := lines;
    for k := 0 to |items|
      invariant r == lines + Bulleted(items[..k])
    {
      assert items[..k + 1][..k] == items[..k];
      r := r + [Bullet + items[k]];
    }
    assert items[..|items|] == items;
  }

  // ---------------------------------------------------------------------
  // Subjective

  /** A patient list block: a blank line, the header, then the bulleted
      items; nothing for a missing or empty list. */
  function Block(header: string, list: Option<seq<string>>): seq<string> {
    if list.Some? && list.value != [] then ["", header] + Bulleted(list.value) else []
  }

  function BlockSize(list: Option<seq<string>>): nat {
    if list.Some? && list.value != [] then 2 + |list.value| else 0
  }

  /** A block is the blank line, the header and one "• item" line per item
      in order, and it is there exactly when the list has items. */
  lemma BlockLayout(header: string, list: Option<seq<string>>)
    ensures |Block(header, list)| == BlockSize(list)
    ensures Block(header, list) == [] <==> list.None? || list.value == []
    ensures list.Some? && list.value != [] ==>
              Block(header, list)[0] == "" && Block(header, list)[1] == header
              && forall i :: 0 <= i < |list.value| ==> Block(header, list)[2 + i] == Bullet + list.value[i]
  {
    if list.Some? {
      BulletedLines(list.value);
    }
  }

  /** The Subjective lines: the subjective text, then for a known patient
      the history, allergy and medication blocks in that order. */
  function SubjectiveLines(so: StructuredSO, patient: Option<PatientData>): seq<string> {
    if patient.None? then [so.subjective]
    else [so.subjective] + Block("Past Medical History:", patient.value.pastMedicalHistory)
         + Block("Allergies:", patient.value.allergies)
         + Block("Medications:", patient.value.medications)
  }

  /** The subjective text comes first, followed by exactly the lines of the
      three blocks. */
  lemma SubjectiveLayout(so: StructuredSO, patient: Option<PatientData>)
    ensures SubjectiveLines(so, patient)[0] == so.subjective
    ensures |SubjectiveLines(so, patient)|
            == 1 + if patient.None? then 0
                   else BlockSize(patient.value.pastMedicalHistory) + BlockSize(patient.value.allergies)
                        + BlockSize(patient.value.medications)
  {
    if patient.Some? {
      BlockLayout("Past Medical History:", patient.value.pastMedicalHistory);
      BlockLayout("Allergies:", patient.value.allergies);
      BlockLayout("Medications:", patient.value.medications);
    }
  }

  /** The Subjective body, built line by line and joined by newlines. */
  method SubjectiveBody(so: StructuredSO, patient: Option<PatientData>) returns (body: string)
    ensures body == Join(SubjectiveLines(so, patient), "\n")
  {
    var subjectiveLines := [so.subjective];
    if patient.Some? {
      var p := patient.value;
      if p.pastMedicalHistory.Some? && p.pastMedicalHistory.value != [] {
        subjectiveLines := subjectiveLines + ["", "Past Medical History:"];
        subjectiveLines := AppendBullets(subjectiveLines, p.pastMedicalHistory.value);
      }
      assert subjectiveLines == [so.subjective] + Block("Past Medical History:", p.pastMedicalHistory);
      ghost var withHistory := subjectiveLines;
      if p.allergies.Some? && p.allergies.value != [] {
        subjectiveLines := subjectiveLines + ["", "Allergies:"];
        subjectiveLines := AppendBullets(subjectiveLines, p.allergies.value);
      }
      assert subjectiveLines == withHistory + Block("Allergies:", p.allergies);
      ghost var withAllergies := subjectiveLines;
      if p.medications.Some? && p.medications.value != [] {
        subjectiveLines := subjectiveLines + ["", "Medications:"];
        subjectiveLines := AppendBullets(subjectiveLines, p.medications.value);
      }
      assert subjectiveLines == withAllergies + Block("Medications:", p.medications);
    }
    body := Join(subjectiveLines, "\n");
  }

  // ---------------------------------------------------------------------
  // Objective

  /** The seven labelled exam lines. */
  function ExamLines(o: ObjectiveExam): seq<string> {
    ["HEENT: " + o.heent, "Lungs: " + o.lungs, "Heart: " + o.heart, "Abdomen: " + o.abdomen,
     "Extremities: " + o.extremities, "Neuro: " + o.neuro, "Other: " + o.other]
  }

  predicate HasVitals(patient: Option<PatientData>) {
    patient.Some? && patient.value.vitals.Some? && patient.value.vitals.value != []
  }

  /** "Vitals:", the bulleted vitals and a blank line, for a patient with
      vitals. */
  function VitalsBlock(patient: Option<PatientData>): seq<string> {
    if HasVitals(patient) then ["Vitals:"] + Bulleted(patient.value.vitals.value) + [""] else []
  }

  function ObjectiveLines(so: StructuredSO, patient: Option<PatientData>): seq<string> {
    VitalsBlock(patient) + ["Physical Exam"] + ExamLines(so.objective)
  }

  /** The Objective lines end with "Physical Exam" and the seven exam lines
      in fixed order; before them comes the vitals block exactly when there
      are vitals, one line per vital. */
  lemma ObjectiveLayout(so: StructuredSO, patient: Option<PatientData>)
    ensures var lines := ObjectiveLines(so, patient);
      |lines| >= 8 && lines[|lines| - 8..] == ["Physical Exam"] + ExamLines(so.objective)
    ensures |ObjectiveLines(so, patient)|
            == 8 + if HasVitals(patient) then |patient.value.vitals.value| + 2 else 0
    ensures HasVitals(patient) ==>
              ObjectiveLines(so, patient)[0] == "Vitals:"
              && forall i :: 0 <= i < |patient.value.vitals.value| ==>
                   ObjectiveLines(so, patient)[1 + i] == Bullet + patient.value.vitals.value[i]
    ensures !HasVitals(patient) ==> ObjectiveLines(so, patient)[0] == "Physical Exam"
  {
    if HasVitals(patient) {
      BulletedLines(patient.value.vitals.value);
    }
    var lines := ObjectiveLines(so, patient);
    assert lines[|lines| - 8..] == ["Physical Exam"] + ExamLines(so.objective);
  }

  /** The Objective body, built line by line and joined by newlines. */
  method ObjectiveBody(so: StructuredSO, patient: Option<PatientData>) returns (body: string)
    ensures body == Join(ObjectiveLines(so, patient), "\n")
  {
    var objectiveLines: seq<string> := [];
    if patient.Some? && patient.value.vitals.Some? && patient.value.vitals.value != [] {
      objectiveLines := objectiveLines + ["Vitals:"];
      objectiveLines := AppendBullets(objectiveLines, patient.value.vitals.value);
      objectiveLines := objectiveLines + [""];
    }
    assert objectiveLines == VitalsBlock(patient);
    objectiveLines := objectiveLines + ["Physical Exam"];
    var o := so.objective;
    objectiveLines := objectiveLines + ["HEENT: " + o.heent];
    objectiveLines := objectiveLines + ["Lungs: " + o.lungs];
    objectiveLines := objectiveLines + ["Heart: " + o.heart];
    objectiveLines := objectiveLines + ["Abdomen: " + o.abdomen];
    objectiveLines := objectiveLines + ["Extremities: " + o.extremities];
    objectiveLines := objectiveLines + ["Neuro: " + o.neuro];
    objectiveLines := objectiveLines + ["Other: " + o.other];
    assert objectiveLines == VitalsBlock(patient) + ["Physical Exam"] + ExamLines(o);
    body := Join(objectiveLines, "\n");
  }

  /** The Objective body is never blank: it always holds the exam. */
  lemma ObjectiveNotBlank(so: StructuredSO, patient: Option<PatientData>)
    ensures !IsBlank(Join(ObjectiveLines(so, patient), "\n"))
  {
    var lines := ObjectiveLines(so, patient);
    var last := "Other: " + so.objective.other;
    var init := lines[..|lines| - 1];
    assert lines == init + [last];
    JoinSnoc(init, last, "\n");
    NotBlankAt(Join(lines, "\n"), |Join(init, "\n")| + 1);
  }

  // ---------------------------------------------------------------------
  // Plan

  /** The line of one action: indented, bulleted, ended by a newline. */
  function ActionLine(action: string): string {
    "  " + Bullet + action + "\n"
  }

  function ActionsText(actions: seq<string>): string {
    if actions == [] then "" else ActionsText(actions[..|actions| - 1]) + ActionLine(actions[|actions| - 1])
  }

  /** A problem: its "problem:" line, its actions, and a blank separator. */
  function ProblemText(p: PlanProblem): string {
    (p.problem + ":\n") + ActionsText(p.actions) + "\n"
  }

  /** Regrouping a concatenation, as a lemma so that the step is proved in
      a small context rather than in the caller's. */
  lemma SeqAssoc<T>(a: seq<T>, b: seq<T>, c: seq<T>)
    ensures a + (b + c) == a + b + c
  {
  }

  function PlanText(plan: seq<PlanProblem>): string {
    if plan == [] then "" else PlanText(plan[..|plan| - 1]) + ProblemText(plan[|plan| - 1])
  }

  /** The Plan body: `planText` built problem by problem, then trimmed. */
  method PlanBody(ap: StructuredAP) returns (body: string)
    ensures body == Trim(PlanText(ap.plan))
  {
    var planText := "";
    for k := 0 to |ap.plan|
      invariant planText == PlanText(ap.plan[..k])
    {
      var problem := ap.plan[k];
      ghost var before := planText;
      planText := planText + (problem.problem + ":\n");
      for m := 0 to |problem.actions|
        invariant planText == before + (problem.problem + ":\n") + ActionsText(problem.actions[..m])
      {
        assert problem.actions[..m + 1][..m] == problem.actions[..m];
        assert ActionsText(problem.actions[..m + 1])
            == ActionsText(problem.actions[..m]) + ActionLine(problem.actions[m]);
        assert before + (problem.problem + ":\n") + ActionsText(problem.actions[..m + 1])
            == before + (problem.problem + ":\n") + ActionsText(problem.actions[..m]) + ActionLine(problem.actions[m]);
        planText := planText + ("  " + Bullet + problem.actions[m] + "\n");
      }
      assert problem.actions[..|problem.actions|] == problem.actions;
      ghost var actions := ActionsText(problem.actions);
      assert before + ProblemText(problem) == before + (problem.problem + ":\n") + actions + "\n";
      planText := planText + "\n";
      assert ap.plan[..k + 1][..k] == ap.plan[..k];
    }
    assert ap.plan[..|ap.plan|] == ap.plan;
    body := Trim(planText);
  }

  /** The Plan body is blank exactly when there are no problems: every
      problem line holds its colon. */
  lemma PlanBlankIff(plan: seq<PlanProblem>)
    ensures IsBlank(PlanText(plan)) <==> plan == []
  {
    if plan != [] {
      var init := PlanText(plan[..|plan| - 1]);
      var p := plan[|plan| - 1];
      var k := |init| + |p.problem|;
      assert PlanText(plan)[k] == ':';
      NotBlankAt(PlanText(plan), k);
    }
  }

  // ---------------------------------------------------------------------
  // Emotional tone

  /** Three lines per moment: "Phase: Emotion" capitalised, the indented
      description, and a blank line. */
  function MomentLines(moments: seq<EmotionMoment>): seq<string> {
    if moments == [] then []
    else
      var m := moments[|moments| - 1];
      MomentLines(moments[..|moments| - 1])
      + [Capitalized(m.phase) + ": " + Capitalized(m.emotion), "  " + m.description, ""]
  }

  lemma {:induction false} MomentLayout(moments: seq<EmotionMoment>)
    ensures |MomentLines(moments)| == 3 * |moments|
    ensures forall i :: 0 <= i < |moments| ==>
              MomentLines(moments)[3 * i] == Capitalized(moments[i].phase) + ": " + Capitalized(moments[i].emotion)
              && MomentLines(moments)[3 * i + 1] == "  " + moments[i].description
              && MomentLines(moments)[3 * i + 2] == ""
  {
    if moments != [] {
      MomentLayout(moments[..|moments| - 1]);
    }
  }

  function SummaryLines(bullets: seq<string>): seq<string> {
    if bullets == [] then [] else ["Overall emotional impressions:"] + Bulleted(bullets)
  }

  /** The emotion lines: the overall impressions if any, then the
      trajectory if any moments, separated by a blank line only when both
      are there. */
  function EmotionLines(e: EmotionAnalysisResult): seq<string> {
    if e.moments == [] then SummaryLines(e.summaryBullets)
    else SummaryLines(e.summaryBullets) + (if e.summaryBullets != [] then [""] else []) + ["Emotional trajectory:"]
         + MomentLines(e.moments)
  }

  /** The Emotional tone body: the lines joined and trimmed. */
  function EmotionText(e: EmotionAnalysisResult): string {
    Trim(Join(EmotionLines(e), "\n"))
  }

  /** A blank line comes before "Emotional trajectory:" only when there are
      overall impressions. */
  lemma TrajectoryHeader(e: EmotionAnalysisResult)
    requires e.moments != []
    ensures e.summaryBullets == [] ==> EmotionLines(e)[0] == "Emotional trajectory:"
    ensures e.summaryBullets != [] ==>
              |EmotionLines(e)| > |e.summaryBullets| + 2
              && EmotionLines(e)[|e.summaryBullets|] != ""
              && EmotionLines(e)[|e.summaryBullets| + 1] == ""
              && EmotionLines(e)[|e.summaryBullets| + 2] == "Emotional trajectory:"
  {
    BulletedLines(e.summaryBullets);
    if e.summaryBullets != [] {
      assert |SummaryLines(e.summaryBullets)| == |e.summaryBullets| + 1;
      assert EmotionLines(e)[|e.summaryBullets|] == Bullet + e.summaryBullets[|e.summaryBullets| - 1];
    }
  }

  /** The Emotional tone body is empty exactly when there are neither
      impressions nor moments. */
  lemma EmotionBlankIff(e: EmotionAnalysisResult)
    ensures EmotionText(e) == [] <==> e.summaryBullets == [] && e.moments == []
  {
    var lines := EmotionLines(e);
    if lines != [] {
      var joined := Join(lines, "\n");
      assert lines[0] == "Overall emotional impressions:" || lines[0] == "Emotional trajectory:";
      assert joined[0] == lines[0][0];
      NotBlankAt(joined, 0);
    }
  }

  /** The Emotional tone body, built line by line, joined and trimmed. */
  method EmotionBody(e: EmotionAnalysisResult) returns (body: string)
    ensures body == EmotionText(e)
  {
    var lines: seq<string> := [];
    if e.summaryBullets != [] {
      lines := lines + ["Overall emotional impressions:"];
      lines := AppendBullets(lines, e.summaryBullets);
    }
    assert lines == SummaryLines(e.summaryBullets);
    if e.moments != [] {
      if lines != [] {
        lines := lines + [""];
      }
      lines := lines + ["Emotional trajectory:"];
      ghost var head := lines;
      for k := 0 to |e.moments|
        invariant lines == head + MomentLines(e.moments[..k])
      {
        var moment := e.moments[k];
        var phase := Capitalized(moment.phase);
        var feeling := Capitalized(moment.emotion);
        lines := lines + [phase + ": " + feeling];
        lines := lines + ["  " + moment.description];
        lines := lines + [""];
        assert e.moments[..k + 1][..k] == e.moments[..k];
      }
      assert e.moments[..|e.moments|] == e.moments;
    }
    body := Trim(Join(lines, "\n"));
  }

  // ---------------------------------------------------------------------
  // Hallucination review

  /** The quote line of an issue, for a quote that is not empty. */
  function QuoteLine(issue: HallucinationIssue): string {
    if issue.supportingTranscriptQuote.Some? && issue.supportingTranscriptQuote.value != []
    then "   Suggested supporting quote: \U{201C}" + issue.supportingTranscriptQuote.value + "\U{201D}\n"
    else ""
  }

  /** Issue number `n`: "n. explanation", the quote line, a blank line. */
  function IssueText(n: int, issue: HallucinationIssue): string {
    IntToString(n) + ". " + issue.explanation + "\n" + QuoteLine(issue) + "\n"
  }

  /** The issues as the loop writes them, numbered by position from 1. */
  function IssuesText(issues: seq<HallucinationIssue>): string {
    if issues == [] then ""
    else IssuesText(issues[..|issues| - 1]) + IssueText(|issues|, issues[|issues| - 1])
  }

  /** The entry of each issue, the `k`-th numbered `k + 1`. */
  function Entries(issues: seq<HallucinationIssue>): seq<string> {
    seq(|issues|, k requires 0 <= k < |issues| => IssueText(k + 1, issues[k]))
  }

  /** The parts written one after another. */
  function Concat(parts: seq<string>): string {
    if parts == [] then "" else Concat(parts[..|parts| - 1]) + parts[|parts| - 1]
  }

  /** The issues are numbered 1 to n in input order: the review text is the
      entries of the issues in order, the `k`-th numbered `k + 1`. */
  lemma {:induction false} IssuesNumbered(issues: seq<HallucinationIssue>)
    ensures IssuesText(issues) == Concat(Entries(issues))
  {
    if issues != [] {
      var init := issues[..|issues| - 1];
      IssuesNumbered(init);
      assert Entries(issues)[..|issues| - 1] == Entries(init);
    }
  }

  /** The review body is blank exactly when there are no issues: every
      issue line holds the period after its number. */
  lemma IssuesBlankIff(issues: seq<HallucinationIssue>)
    ensures IsBlank(IssuesText(issues)) <==> issues == []
  {
    if issues != [] {
      var init := IssuesText(issues[..|issues| - 1]);
      var k := |init| + |IntToString(|issues|)|;
      assert IssuesText(issues)[k] == '.';
      NotBlankAt(IssuesText(issues), k);
    }
  }

  /** The review body: `issuesText` built issue by issue, then trimmed. */
  method IssuesBody(issues: seq<HallucinationIssue>) returns (body: string)
    ensures body == Trim(IssuesText(issues))
  {
    var issuesText := "";
    for idx := 0 to |issues|
      invariant issuesText == IssuesText(issues[..idx])
    {
      var issue := issues[idx];
      var entry := IntToString(idx + 1) + ". " + issue.explanation + "\n";
      if issue.supportingTranscriptQuote.Some? && issue.supportingTranscriptQuote.value != [] {
        var quote := issue.supportingTranscriptQuote.value;
        entry := entry + ("   Suggested supporting quote: \U{201C}" + quote + "\U{201D}\n");
      } else {
        assert entry + QuoteLine(issue) == entry;
      }
      entry := entry + "\n";
      assert issues[..idx + 1][..idx] == issues[..idx];
      issuesText := issuesText + entry;
    }
    assert issues[..|issues|] == issues;
    body := Trim(issuesText);
  }

  // ---------------------------------------------------------------------
  // Sections and pages

  /** Letter size at 72 dpi, with the margin on every side. */
  const PageHeight: real := 792.0
  const Margin: real := 36.0
  const MaxContentHeight: real := PageHeight - 2.0 * Margin

  /** A section as `drawSection` is called with it, or as it is drawn, with
      its body trimmed. */
  datatype Section = Section(title: string, body: string)

  /** What `drawSection` draws for a call: nothing for a blank body,
      otherwise the title and the trimmed body. */
  function Shown(c: Section): seq<Section> {
    if IsBlank(c.body) then [] else [Section(c.title, Trim(c.body))]
  }

  /** The sections `drawSOAPReport` draws, in its fixed order: the note
      sections, then the review sections. */
  function ReportSections(so: StructuredSO, ap: StructuredAP, visitSummary: Option<VisitSummary>,
                          patient: Option<PatientData>, issues: seq<HallucinationIssue>,
                          emotion: Option<EmotionAnalysisResult>): seq<Section>
  {
    NoteSections(so, ap, visitSummary, patient) + ReviewSections(issues, emotion)
  }

  /** The visit summary when there is one, then Subjective, Objective,
      Assessment and Plan, each call drawing what `Shown` says. */
  function NoteSections(so: StructuredSO, ap: StructuredAP, visitSummary: Option<VisitSummary>,
                        patient: Option<PatientData>): seq<Section>
  {
    (if visitSummary.Some? then Shown(Section("Visit Summary", visitSummary.value.oneLine)) else [])
    + Shown(Section("Subjective", Join(SubjectiveLines(so, patient), "\n")))
    + Shown(Section("Objective", Join(ObjectiveLines(so, patient), "\n")))
    + Shown(Section("Assessment", ap.assessment))
    + Shown(Section("Plan", Trim(PlanText(ap.plan))))
  }

  /** The emotional tone when there is an analysis whose body is not
      empty, then the hallucination review when there are issues. */
  function ReviewSections(issues: seq<HallucinationIssue>, emotion: Option<EmotionAnalysisResult>): seq<Section> {
    (if emotion.Some? && EmotionText(emotion.value) != [] then
       Shown(Section("Patient Emotional Tone", EmotionText(emotion.value))) else [])
    + (if issues != [] then Shown(Section("Hallucination Review", Trim(IssuesText(issues)))) else [])
  }

  /** A call whose body is already trimmed is drawn exactly when that body
      is not blank, and as it is. */
  lemma ShownTrimmed(title: string, body: string)
    ensures Shown(Section(title, Trim(body))) == if IsBlank(body) then [] else [Section(title, Trim(body))]
  {
    TrimIdempotent(body);
  }

  /** Which sections the report holds: the visit summary if there is one
      that is not blank, Subjective unless its whole body is blank,
      Objective always, Assessment unless blank, Plan exactly when there are
      problems, the emotional tone exactly when the analysis has
      impressions or moments, and the review exactly when there are
      issues. */
  lemma DrawnSections(so: StructuredSO, ap: StructuredAP, visitSummary: Option<VisitSummary>,
                      patient: Option<PatientData>, issues: seq<HallucinationIssue>,
                      emotion: Option<EmotionAnalysisResult>)
    ensures ReportSections(so, ap, visitSummary, patient, issues, emotion)
            == ((if visitSummary.Some? && !IsBlank(visitSummary.value.oneLine)
                 then [Section("Visit Summary", Trim(visitSummary.value.oneLine))] else [])
                + Shown(Section("Subjective", Join(SubjectiveLines(so, patient), "\n")))
                + [Section("Objective", Trim(Join(ObjectiveLines(so, patient), "\n")))]
                + Shown(Section("Assessment", ap.assessment))
                + (if ap.plan == [] then [] else [Section("Plan", Trim(PlanText(ap.plan)))]))
               + ((if emotion.Some? && (emotion.value.summaryBullets != [] || emotion.value.moments != [])
                   then [Section("Patient Emotional Tone", EmotionText(emotion.value))] else [])
                  + (if issues == [] then [] else [Section("Hallucination Review", Trim(IssuesText(issues)))]))
  {
    ObjectiveNotBlank(so, patient);
    ShownTrimmed("Plan", PlanText(ap.plan));
    PlanBlankIff(ap.plan);
    if emotion.Some? {
      EmotionBlankIff(emotion.value);
      ShownTrimmed("Patient Emotional Tone", Join(EmotionLines(emotion.value), "\n"));
    }
    ShownTrimmed("Hallucination Review", IssuesText(issues));
    IssuesBlankIff(issues);
  }

  /** The state of `drawSOAPReport` as it draws: the cursor, the pages
      begun, and the sections drawn so far. */
  class ReportCanvas {
    var cursorY: real
    var pages: nat
    var drawn: seq<Section>

    constructor ()
      ensures cursorY == Margin && pages == 0 && drawn == []
    {
      cursorY, pages, drawn := Margin, 0, [];
    }

    /** `beginNewPageIfNeeded(for:)`: a new page starts exactly when the
        height does not fit below the cursor, and the cursor then returns to
        the top margin. */
    method BeginNewPageIfNeeded(height: real)
      modifies this`cursorY, this`pages
      ensures old(cursorY) + height > Margin + MaxContentHeight ==> cursorY == Margin && pages == old(pages) + 1
      ensures old(cursorY) + height <= Margin + MaxContentHeight ==> cursorY == old(cursorY) && pages == old(pages)
    {
      if cursorY + height > Margin + MaxContentHeight {
        pages := pages + 1;
        cursorY := Margin;
      }
    }

    /** `drawHeader()`: begins a page and moves the cursor below the title
        and the date line. */
    method DrawHeader(titleHeight: real, subtitleHeight: real)
      modifies this`cursorY, this`pages
      ensures pages == old(pages) + 1
      ensures cursorY == old(cursorY) + titleHeight + 4.0 + subtitleHeight + 16.0
    {
      pages := pages + 1;
      cursorY := cursorY + titleHeight + 4.0;
      cursorY := cursorY + subtitleHeight + 16.0;
    }

    /** `drawSection(title:body:)`. The measured heights of a title and of
        a trimmed body are given functions. A blank body draws nothing and
        leaves the cursor; otherwise the section goes on the current page
        if it fits and on a new one if not, and a section no taller than a
        page ends within the page. */
    method DrawSection(title: string, body: string, titleHeight: string -> real, bodyHeight: string -> real)
      modifies this`cursorY, this`pages, this`drawn
      ensures drawn == old(drawn) + Shown(Section(title, body))
      ensures IsBlank(body) ==> cursorY == old(cursorY) && pages == old(pages)
      ensures !IsBlank(body) ==>
                var needed := titleHeight(title) + 4.0 + bodyHeight(Trim(body)) + 12.0;
                if old(cursorY) + needed > Margin + MaxContentHeight
                then pages == old(pages) + 1 && cursorY == Margin + needed
                else pages == old(pages) && cursorY == old(cursorY) + needed
      ensures (titleHeight(title) + 4.0 + bodyHeight(Trim(body)) + 12.0 <= MaxContentHeight
               && old(cursorY) <= Margin + MaxContentHeight) ==> cursorY <= Margin + MaxContentHeight
    {
      var trimmed := Trim(body);
      if trimmed == [] {
        return;
      }
      var bodySize := bodyHeight(trimmed);
      var titleSize := titleHeight(title);
      var neededHeight := titleSize + 4.0 + bodySize + 12.0;
      BeginNewPageIfNeeded(neededHeight);
      drawn := drawn + [Section(title, trimmed)];
      cursorY := cursorY + titleSize + 4.0;
      cursorY := cursorY + bodySize + 12.0;
    }

    /** `drawSOAPReport`: the header, then each section in the fixed order.
        `headerHeights` are the measured title and date lines. */
    method DrawSOAPReport(so: StructuredSO, ap: StructuredAP, visitSummary: Option<VisitSummary>,
                          patient: Option<PatientData>, issues: seq<HallucinationIssue>,
                          emotion: Option<EmotionAnalysisResult>, headerHeights: (real, real),
                          titleHeight: string -> real, bodyHeight: string -> real)
      modifies this`cursorY, this`pages, this`drawn
      ensures drawn == old(drawn) + ReportSections(so, ap, visitSummary, patient, issues, emotion)
      ensures pages >= old(pages) + 1
    {
      DrawHeader(headerHeights.0, headerHeights.1);
      ghost var start := drawn;
      ghost var note := DrawNote(so, ap, visitSummary, patient, titleHeight, bodyHeight, start);
      ghost var review := DrawReview(issues, emotion, titleHeight, bodyHeight, start + note);
      SeqAssoc(start, note, review);
    }

    /** The visit summary, Subjective, Objective, Assessment and Plan. */
    method DrawNote(so: StructuredSO, ap: StructuredAP, visitSummary: Option<VisitSummary>,
                    patient: Option<PatientData>, titleHeight: string -> real, bodyHeight: string -> real,
                    ghost start: seq<Section>) returns (ghost sections: seq<Section>)
      requires drawn == start
      modifies this`cursorY, this`pages, this`drawn
      ensures sections == NoteSections(so, ap, visitSummary, patient)
      ensures drawn == start + sections
      ensures pages >= old(pages)
    {
      sections := [];
      assert drawn == start + sections;
      if visitSummary.Some? {
        sections := Draw("Visit Summary", visitSummary.value.oneLine, titleHeight, bodyHeight, start, sections);
        assert sections == Shown(Section("Visit Summary", visitSummary.value.oneLine));
      }
      var subjective := SubjectiveBody(so, patient);
      sections := Draw("Subjective", subjective, titleHeight, bodyHeight, start, sections);
      var objective := ObjectiveBody(so, patient);
      sections := Draw("Objective", objective, titleHeight, bodyHeight, start, sections);
      sections := Draw("Assessment", ap.assessment, titleHeight, bodyHeight, start, sections);
      var plan := PlanBody(ap);
      sections := Draw("Plan", plan, titleHeight, bodyHeight, start, sections);
    }

    /** The emotional tone and the hallucination review. */
    method DrawReview(issues: seq<HallucinationIssue>, emotion: Option<EmotionAnalysisResult>,
                      titleHeight: string -> real, bodyHeight: string -> real,
                      ghost start: seq<Section>) returns (ghost sections: seq<Section>)
      requires drawn == start
      modifies this`cursorY, this`pages, this`drawn
      ensures sections == ReviewSections(issues, emotion)
      ensures drawn == start + sections
      ensures pages >= old(pages)
    {
      sections := [];
      assert drawn == start + sections;
      if emotion.Some? {
        var body := EmotionBody(emotion.value);
        if body != [] {
          sections := Draw("Patient Emotional Tone", body, titleHeight, bodyHeight, start, sections);
          assert sections == Shown(Section("Patient Emotional Tone", body));
        }
      }
      ghost var tone := sections;
      if issues != [] {
        var body := IssuesBody(issues);
        sections := Draw("Hallucination Review", body, titleHeight, bodyHeight, start, sections);
      } else {
        assert sections == tone + [];
      }
    }

    /** One `drawSection` call of the report, with the sections drawn since
        `start` collected in `sections`. */
    method Draw(title: string, body: string, titleHeight: string -> real, bodyHeight: string -> real,
                ghost start: seq<Section>, ghost sections: seq<Section>) returns (ghost next: seq<Section>)
      requires drawn == start + sections
      modifies this`cursorY, this`pages, this`drawn
      ensures next == sections + Shown(Section(title, body))
      ensures drawn == start + next
      ensures pages >= old(pages)
    {
      DrawSection(title, body, titleHeight, bodyHeight);
      next := sections + Shown(Section(title, body));
      assert start + next == start + sections + Shown(Section(title, body));
    }
  }
}
