/**
 What each repository write, task delivery and human decision does to one ticket: its status,
 its metadata, its department rows, its final document and the saved approval threads.
 `RfpDatabase` implements these functions step by step; `RfpInvariant` proves what runs of them keep.
 */
module RfpProtocol {
  import opened Options
  import opened RfpLifecycle
  import opened RfpArbitration
  import opened RfpThread

  // ---------- the stored data ----------

  datatype ApprovalStatus = StatusPending | StatusApproved | StatusRejected

  /** The keys of a row's evaluation_results that the approval protocol reads or writes. */
  datatype Eval = Eval(
    numbers: Numbers,
    ceoFlag: bool,
    forced: Option<bool>,
    arbiterFeedback: Option<seq<Trigger>>,
    humanFeedback: Option<string>,
    arbitration: Option<Arbitration>,
    interruptId: Option<nat>,
    outcome: Option<Outcome>,
    needsReview: bool)

  const EMPTY_EVAL := Eval(NULL_NUMBERS, false, None, None, None, None, None, None, false)

  datatype Row = Row(
    draft: Option<string>,
    eval: Eval,
    status: ApprovalStatus,
    approver: Option<string>,
    approvedAt: Option<Time>)

  const BLANK_ROW := Row(None, EMPTY_EVAL, StatusPending, None, None)

  datatype Metadata = Metadata(needed: seq<Dept>, budgetCeiling: Option<real>)

  datatype DocSection = DocSection(dept: Dept, owner: string, draft: Option<string>,
                                   approvedAt: Option<Time>, approver: string)

  datatype Document = Document(sections: seq<DocSection>, triggers: seq<Trigger>, ceoLine: Option<Time>)

  datatype CeoThread = CeoAbsent | CeoPaused(interruptId: nat) | CeoEnded(decision: CeoDecision)

  datatype State = State(
    status: Status,
    metadata: Option<Metadata>,
    rows: map<Dept, Row>,
    document: Option<Document>,
    threads: map<Dept, Thread>,
    ceoThread: CeoThread,
    nextId: nat)

  const NEW_TICKET := State(Analyzing, None, map[], None, map[], CeoAbsent, 0)

  function Owner(d: Dept): string {
    match d
    case Marketing => "Camila Ospina"
    case Operaciones => "Felipe Guerrero"
    case Procurement => "Lucía Fernández"
    case Training => "Jake Morrison"
  }

  /** The database returns rows in no particular order: any listing of all the departments. */
  predicate IsRowOrder(order: seq<Dept>)
  {
    && Marketing in order && Operaciones in order && Procurement in order && Training in order
    && (forall i, j :: 0 <= i < j < |order| ==> order[i] != order[j])
  }

  type RowOrder = order: seq<Dept> | IsRowOrder(order) witness ALL_DEPARTMENTS

  lemma EveryDeptListed(order: RowOrder)
    ensures forall d: Dept :: d in order
  {
    forall d: Dept
      ensures d in order
    {
      match d case Marketing => case Operaciones => case Procurement => case Training =>
    }
  }

  function Select(order: seq<Dept>, keys: set<Dept>): (picked: seq<Dept>)
    requires forall i, j :: 0 <= i < j < |order| ==> order[i] != order[j]
    ensures forall d :: d in picked <==> d in order && d in keys
    ensures forall i, j :: 0 <= i < j < |picked| ==> picked[i] != picked[j]
  {
    if order == [] then []
    else
      assert order == [order[0]] + order[1..];
      (if order[0] in keys then [order[0]] else []) + Select(order[1..], keys)
  }

  // ---------- repository writes: None is an exception that leaves the data as it was ----------

  function UpdateStatus(s: State, target: Status): Option<State> {
    if ValidateTransition(s.status, target) == Allowed then Some(s.(status := target)) else None
  }

  /** A shallow patch of evaluation_results: the keys that are present overwrite. */
  datatype EvalPatch = EvalPatch(
    numbers: Option<Numbers>,
    forced: Option<bool>,
    arbiterFeedback: Option<seq<Trigger>>,
    arbitration: Option<Arbitration>,
    interruptId: Option<Option<nat>>,
    outcome: Option<Outcome>,
    needsReview: Option<bool>)

  const NO_PATCH := EvalPatch(None, None, None, None, None, None, None)

  function Patched(e: Eval, p: EvalPatch): Eval {
    Eval(
      if p.numbers.Some? then p.numbers.value else e.numbers,
      e.ceoFlag,
      if p.forced.Some? then p.forced else e.forced,
      if p.arbiterFeedback.Some? then p.arbiterFeedback else e.arbiterFeedback,
      e.humanFeedback,
      if p.arbitration.Some? then p.arbitration else e.arbitration,
      if p.interruptId.Some? then p.interruptId.value else e.interruptId,
      if p.outcome.Some? then p.outcome else e.outcome,
      if p.needsReview.Some? then p.needsReview.value else e.needsReview)
  }

  function MergeEvaluation(s: State, d: Dept, p: EvalPatch): Option<State> {
    if d !in s.rows then None
    else Some(s.(rows := s.rows[d := s.rows[d].(eval := Patched(s.rows[d].eval, p))]))
  }

  function UpdateSection(s: State, d: Dept, draft: string, eval: Eval): Option<State> {
    if d !in s.rows then None
    else Some(s.(rows := s.rows[d := s.rows[d].(draft := Some(draft), eval := eval)]))
  }

  function UpdateApproval(s: State, d: Dept, status: ApprovalStatus, now: Time): Option<State> {
    if d !in s.rows then None
    else Some(s.(rows := s.rows[d := s.rows[d].(status := status, approver := Some(Owner(d)),
                                                approvedAt := Some(now))]))
  }

  // ---------- tasks: a list of commits, cut short by an outage or by a write that raises ----------

  datatype Commit =
    | SetStatus(target: Status)
    | SaveMetadata(metadata: Metadata)
    | InsertRows(depts: seq<Dept>)
    | WriteSection(dept: Dept, draft: string, eval: Eval)
    | Merge(dept: Dept, patch: EvalPatch)
    | StartThread(dept: Dept, section: Section)

  /** Starting a thread pauses it at once under a new id, which is then written to the row. */
  function ApplyCommit(s: State, c: Commit): Option<State> {
    match c
    case SetStatus(target) => UpdateStatus(s, target)
    case SaveMetadata(m) => Some(s.(metadata := Some(m)))
    case InsertRows(depts) =>
      if exists d :: d in depts && d in s.rows then None
      else Some(s.(rows := s.rows + map d | d in depts :: BLANK_ROW))
    case WriteSection(d, draft, eval) => UpdateSection(s, d, draft, eval)
    case Merge(d, patch) => MergeEvaluation(s, d, patch)
    case StartThread(d, section) =>
      MergeEvaluation(s.(threads := s.threads[d := Paused(section, 0, s.nextId)], nextId := s.nextId + 1),
                      d, NO_PATCH.(interruptId := Some(Some(s.nextId))))
  }

  /** How far a task got: the state it left, and whether every commit was made. */
  datatype Progress = Progress(state: State, finished: bool)

  function Execute(s: State, commits: seq<Commit>, outage: nat): Progress
    decreases |commits|
  {
    if commits == [] then Progress(s, true)
    else if outage == 0 then Progress(s, false)
    else
      match ApplyCommit(s, commits[0])
      case None => Progress(s, false)
      case Some(next) => Execute(next, commits[1..], outage - 1)
  }

  // ---------- process_rfp ----------

  /** What the intake graph returned. Every valid result needs marketing. */
  datatype Intake =
    | IntakeCrashed
    | IntakeInvalid
    | IntakeValid(metadata: Metadata)

  predicate IntakeResult(i: Intake) {
    i.IntakeValid? ==> Marketing in i.metadata.needed
  }

  function IntakeCommits(i: Intake): seq<Commit> {
    match i
    case IntakeValid(m) =>
      [SaveMetadata(m), InsertRows(Select(ALL_DEPARTMENTS, set d | d in m.needed)), SetStatus(IntakeComplete)]
    case _ => [SetStatus(Discarded)]
  }

  function ProcessIntake(s: State, i: Intake, outage: nat): State {
    Execute(s, IntakeCommits(i), outage).state
  }

  // ---------- process_rfp_response ----------

  datatype Drafted = Drafted(draft: string, ceoFlag: bool, needsReview: bool)

  /**
   One delivery: the drafts the response graph returned (or None if it raised), the outage point,
   and which of the recovery writes of the except block commit.
   */
  datatype ResponseRun = ResponseRun(
    drafts: Option<map<Dept, Drafted>>,
    outage: nat,
    recoveredRows: set<Dept>,
    recoveryStatusCommits: bool)

  const REVIEW_EVAL := EMPTY_EVAL.(needsReview := true)

  function DraftedBy(drafts: map<Dept, Drafted>, d: Dept): Drafted {
    if d in drafts then drafts[d] else Drafted("", false, true)
  }

  function WriteDraft(drafts: map<Dept, Drafted>, d: Dept): Commit {
    var r := DraftedBy(drafts, d);
    WriteSection(d, r.draft, EMPTY_EVAL.(ceoFlag := r.ceoFlag, needsReview := r.needsReview))
  }

  function DraftCommits(drafts: map<Dept, Drafted>, depts: seq<Dept>): seq<Commit> {
    seq(|depts|, i requires 0 <= i < |depts| => WriteDraft(drafts, depts[i]))
  }

  /** The departments the response and synthesis graphs visit: the needed ones in the fixed order. */
  function NeededInOrder(m: Metadata): seq<Dept> {
    Select(ALL_DEPARTMENTS, set d | d in m.needed)
  }

  function Recover(s: State, depts: seq<Dept>, run: ResponseRun): State {
    var rows := map d | d in s.rows ::
      if d in depts && d in run.recoveredRows then s.rows[d].(draft := Some(""), eval := REVIEW_EVAL)
      else s.rows[d];
    var cleared := s.(rows := rows);
    if run.recoveryStatusCommits && UpdateStatus(cleared, UnderEvaluation).Some?
    then UpdateStatus(cleared, UnderEvaluation).value
    else cleared
  }

  function ProcessResponse(s: State, run: ResponseRun): State {
    if run.outage == 0 || UpdateStatus(s, Drafting).None? then Recover(s, [], run)
    else
      var s1 := UpdateStatus(s, Drafting).value;
      if s1.metadata.None? then Recover(s1, [], run)
      else if run.drafts.None? then Recover(s1, s1.metadata.value.needed, run)
      else
        var m := s1.metadata.value;
        var p := Execute(s1, DraftCommits(run.drafts.value, NeededInOrder(m)) + [SetStatus(UnderEvaluation)],
                         run.outage - 1);
        if p.finished then p.state else Recover(p.state, m.needed, run)
  }

  // ---------- process_rfp_approval ----------

  /** One delivery: the numbers extracted from each draft, the row order read, the outage point, the flags written. */
  datatype StartRun = StartRun(extracted: map<Dept, Numbers>, order: RowOrder, outage: nat, flagged: set<Dept>)

  function ExtractedFor(run: StartRun, d: Dept): Numbers {
    if d in run.extracted then run.extracted[d] else NULL_NUMBERS
  }

  function StartFigures(s: State, m: Metadata, run: StartRun): map<Dept, Figures> {
    map d | d in s.rows && d in m.needed :: Figures(ExtractedFor(run, d), s.rows[d].eval.ceoFlag)
  }

  function StartArbitration(s: State, m: Metadata, run: StartRun): Arbitration {
    var figures := StartFigures(s, m, run);
    EveryDeptListed(run.order);
    Arbitrate(Select(run.order, figures.Keys), figures, m.budgetCeiling)
  }

  function StampPatch(arb: Arbitration, numbers: Numbers, d: Dept): EvalPatch {
    NO_PATCH.(
      numbers := Some(numbers),
      arbitration := Some(arb),
      forced := if d in arb.forced then Some(true) else None,
      arbiterFeedback := if d in arb.forced then Some(FeedbackFor(arb, d)) else None)
  }

  function StartSection(s: State, arb: Arbitration, numbers: Numbers, d: Dept): Section {
    Section(if d in s.rows then s.rows[d].draft else None,
            numbers,
            if d in arb.forced then Some(true) else None,
            if d in arb.forced then Some(FeedbackFor(arb, d)) else None,
            None)
  }

  function NumberCommits(m: Metadata, run: StartRun): seq<Commit> {
    var depts := NeededInOrder(m);
    seq(|depts|, i requires 0 <= i < |depts| =>
      Merge(depts[i], NO_PATCH.(numbers := Some(ExtractedFor(run, depts[i])))))
  }

  function StampCommits(m: Metadata, run: StartRun, arb: Arbitration): seq<Commit> {
    seq(|m.needed|, i requires 0 <= i < |m.needed| =>
      Merge(m.needed[i], StampPatch(arb, ExtractedFor(run, m.needed[i]), m.needed[i])))
  }

  function ThreadCommits(s: State, m: Metadata, run: StartRun, arb: Arbitration): seq<Commit> {
    seq(|m.needed|, i requires 0 <= i < |m.needed| =>
      StartThread(m.needed[i], StartSection(s, arb, ExtractedFor(run, m.needed[i]), m.needed[i])))
  }

  /** The extracts and the stamps, all committed before the status flips. */
  function PreFlip(s: State, m: Metadata, run: StartRun): seq<Commit> {
    NumberCommits(m, run) + StampCommits(m, run, StartArbitration(s, m, run))
  }

  function StartCommits(s: State, m: Metadata, run: StartRun): seq<Commit> {
    PreFlip(s, m, run) + [SetStatus(WaitingForApproval)]
    + ThreadCommits(s, m, run, StartArbitration(s, m, run))
  }

  function FlagRows(s: State, depts: seq<Dept>, flagged: set<Dept>): State {
    s.(rows := map d | d in s.rows ::
         if d in depts && d in flagged then s.rows[d].(eval := s.rows[d].eval.(needsReview := true))
         else s.rows[d])
  }

  function ProcessApproval(s: State, run: StartRun): State {
    if s.status != UnderEvaluation || s.metadata.None? then s
    else
      var m := s.metadata.value;
      var p := Execute(s, StartCommits(s, m, run), run.outage);
      if p.finished then p.state else FlagRows(p.state, m.needed, run.flagged)
  }

  // ---------- reading the rows ----------

  predicate RowIsTerminal(r: Row) {
    r.status == StatusApproved || (r.status == StatusRejected && r.eval.outcome == Some(OutcomeExhausted))
  }

  predicate AllTerminal(rows: map<Dept, Row>, needed: seq<Dept>) {
    forall d :: d in needed ==> d in rows && RowIsTerminal(rows[d])
  }

  /** The arbitration record of the first row, in the order read, that has one. */
  function FirstArbitration(order: seq<Dept>, rows: map<Dept, Row>): Arbitration {
    if order == [] then EMPTY_ARBITRATION
    else if order[0] in rows && rows[order[0]].eval.arbitration.Some? then rows[order[0]].eval.arbitration.value
    else FirstArbitration(order[1..], rows)
  }

  datatype CeoPatch = OpenGate(id: nat) | RecordApproval(at: Time) | RecordRejection

  function WithCeoPatch(arb: Arbitration, p: CeoPatch): Arbitration {
    match p
    case OpenGate(id) => arb.(ceoInterruptId := Some(id))
    case RecordApproval(at) => arb.(ceoDecision := Some(CeoApproved), ceoApprovedAt := Some(at), ceoInterruptId := None)
    case RecordRejection => arb.(ceoDecision := Some(CeoRejected), ceoInterruptId := None)
  }

  function CeoPatchedRow(r: Row, p: CeoPatch): Row {
    var arb := if r.eval.arbitration.Some? then r.eval.arbitration.value else EMPTY_ARBITRATION;
    r.(eval := r.eval.(arbitration := Some(WithCeoPatch(arb, p))))
  }

  /** The patch goes to every needed department that has a row. */
  function PatchArbitration(s: State, needed: seq<Dept>, p: CeoPatch): State {
    s.(rows := map d | d in s.rows :: if d in needed then CeoPatchedRow(s.rows[d], p) else s.rows[d])
  }

  // ---------- the final document ----------

  function SectionOf(rows: map<Dept, Row>, d: Dept): DocSection {
    if d in rows
    then DocSection(d, Owner(d), rows[d].draft, rows[d].approvedAt,
                    if rows[d].approver.Some? then rows[d].approver.value else Owner(d))
    else DocSection(d, Owner(d), None, None, Owner(d))
  }

  function SectionsOf(rows: map<Dept, Row>, depts: seq<Dept>): seq<DocSection> {
    seq(|depts|, i requires 0 <= i < |depts| => SectionOf(rows, depts[i]))
  }

  /** An empty list of needed departments falls back to the departments that have a row. */
  function DocumentDepts(s: State, m: Metadata): seq<Dept> {
    if m.needed == [] then Select(ALL_DEPARTMENTS, s.rows.Keys) else NeededInOrder(m)
  }

  function SynthesizeDocument(s: State, m: Metadata, arb: Arbitration, now: Time): Option<Document> {
    if arb.ceoDecision == Some(CeoRejected) then None
    else
      Some(Document(
        SectionsOf(s.rows, DocumentDepts(s, m)),
        arb.triggers,
        if arb.ceoRequired && arb.ceoDecision == Some(CeoApproved)
        then Some(if arb.ceoApprovedAt.Some? then arb.ceoApprovedAt.value else now)
        else None))
  }

  datatype Finalized =
    | Raised
    | NotAllTerminal
    | AlreadyRejected
    | CeoPending
    | CeoGateOpened
    | Completed

  function SynthesizeAndComplete(s: State, order: RowOrder, now: Time): (State, Finalized) {
    if s.metadata.None? then (s, Raised)
    else
      match SynthesizeDocument(s, s.metadata.value, FirstArbitration(order, s.rows), now)
      case None => (s, Raised)
      case Some(doc) =>
        var saved := s.(document := Some(doc));
        match UpdateStatus(saved, Done)
        case None => (saved, Raised)
        case Some(done) => (done, Completed)
  }

  /** The two row orders are those of the read before the CEO gate and of the read in the synthesis. */
  function MaybeFinalize(s: State, order: RowOrder, reread: RowOrder, now: Time): (State, Finalized) {
    if s.metadata.None? then (s, Raised)
    else
      var needed := s.metadata.value.needed;
      if !AllTerminal(s.rows, needed) then (s, NotAllTerminal)
      else
        var arb := FirstArbitration(order, s.rows);
        if arb.ceoRequired && arb.ceoDecision != Some(CeoApproved) then
          if arb.ceoDecision == Some(CeoRejected) then (s, AlreadyRejected)
          else if arb.ceoInterruptId.Some? then (s, CeoPending)
          else
            var gate := s.(ceoThread := CeoPaused(s.nextId), nextId := s.nextId + 1);
            (PatchArbitration(gate, needed, OpenGate(s.nextId)), CeoGateOpened)
        else SynthesizeAndComplete(s, reread, now)
  }

  // ---------- human decisions ----------

  datatype RawAction = Known(action: Action) | Unknown(text: string)

  datatype Refusal =
    | WrongStatus
    | MissingMetadata
    | NotNeeded
    | MissingSection
    | MissingInterrupt
    | InvalidAction
    | MissingThread
    | CeoNotRequired
    | FinalizationRaised

  datatype Decision =
    | Refused(why: Refusal)
    | PendingReapproval
    | Decided(outcome: Outcome, finalized: Finalized)
    | CeoDecided(decision: CeoDecision)

  /** One call of the section endpoint: what the approver sent, and what the foreign parts answered. */
  datatype SectionCall = SectionCall(
    dept: Dept,
    action: RawAction,
    feedback: Option<string>,
    reply: Reply,
    now: Time,
    order: RowOrder,
    reread: RowOrder)

  /** The rework is written in one update: the draft, the re-evaluated flag, the numbers and the new pause. */
  function RegenEval(e: Eval, section: Section, ceoFlag: bool, id: nat): Eval {
    e.(ceoFlag := ceoFlag,
       needsReview := false,
       numbers := section.numbers,
       humanFeedback := if section.humanFeedback.Some? then section.humanFeedback else e.humanFeedback,
       arbiterFeedback := if section.arbiterFeedback.Some? then section.arbiterFeedback else e.arbiterFeedback,
       forced := if section.forced.Some? then section.forced else e.forced,
       interruptId := Some(id))
  }

  function RegenDraft(section: Section, row: Row): string {
    if Text(section.draft) != "" then section.draft.value else Text(row.draft)
  }

  function PersistRegen(s: State, d: Dept, section: Section, id: nat, ceoFlag: bool): Option<State> {
    if d !in s.rows then None
    else UpdateSection(s, d, RegenDraft(section, s.rows[d]), RegenEval(s.rows[d].eval, section, ceoFlag, id))
  }

  function StatusFor(o: Outcome): ApprovalStatus {
    if o == OutcomeApproved then StatusApproved else StatusRejected
  }

  /** The two writes that close the row of an ended thread. */
  function CloseRow(s: State, d: Dept, outcome: Outcome, now: Time): State
    requires d in s.rows
  {
    var stamped := UpdateApproval(s, d, StatusFor(outcome), now).value;
    MergeEvaluation(stamped, d, NO_PATCH.(interruptId := Some(None), outcome := Some(outcome))).value
  }

  /** Close the row, then see whether the ticket can be finished. */
  function CloseSection(s: State, call: SectionCall, outcome: Outcome): (State, Decision)
    requires call.dept in s.rows
  {
    var (fin, how) := MaybeFinalize(CloseRow(s, call.dept, outcome, call.now), call.order, call.reread, call.now);
    (fin, if how == Raised then Refused(FinalizationRaised) else Decided(outcome, how))
  }

  function DecideSection(s: State, call: SectionCall): (State, Decision) {
    var d := call.dept;
    if s.status != WaitingForApproval then (s, Refused(WrongStatus))
    else if s.metadata.None? then (s, Refused(MissingMetadata))
    else if d !in s.metadata.value.needed then (s, Refused(NotNeeded))
    else if d !in s.rows then (s, Refused(MissingSection))
    else if s.rows[d].eval.interruptId.None? then (s, Refused(MissingInterrupt))
    else if call.action.Unknown? then (s, Refused(InvalidAction))
    else if d !in s.threads then (s, Refused(MissingThread))
    else
      var t := Resume(s.threads[d], s.rows[d].eval.interruptId.value, call.action.action,
                      call.feedback, call.reply, s.nextId);
      var resumed := s.(threads := s.threads[d := t], nextId := s.nextId + 1);
      match t
      case Paused(section, _, id) =>
        (PersistRegen(resumed, d, section, id, OverThreshold(s.metadata.value.budgetCeiling)).value,
         PendingReapproval)
      case Ended(_, _, outcome) => CloseSection(resumed, call, outcome)
  }

  datatype CeoCall = CeoCall(action: RawAction, now: Time, order: RowOrder, reread: RowOrder)

  /** The CEO thread ends with a decision, which is then patched into every needed row. */
  function CeoRecorded(s: State, decision: CeoDecision, now: Time): State
    requires s.metadata.Some?
  {
    PatchArbitration(s.(ceoThread := CeoEnded(decision)), s.metadata.value.needed,
                     if decision == CeoApproved then RecordApproval(now) else RecordRejection)
  }

  /** The CEO endpoint accepts only approve and reject. */
  function DecideCeo(s: State, call: CeoCall): (State, Decision) {
    if s.status != WaitingForApproval then (s, Refused(WrongStatus))
    else if s.metadata.None? then (s, Refused(MissingMetadata))
    else
      var needed := s.metadata.value.needed;
      var arb := FirstArbitration(call.order, s.rows);
      if !arb.ceoRequired then (s, Refused(CeoNotRequired))
      else if arb.ceoInterruptId.None? then (s, Refused(MissingInterrupt))
      else if call.action.Unknown? || call.action.action == RequestChanges then (s, Refused(InvalidAction))
      else if s.ceoThread != CeoPaused(arb.ceoInterruptId.value) then (s, Refused(MissingThread))
      else if call.action.action == Approve then
        var (fin, how) := SynthesizeAndComplete(CeoRecorded(s, CeoApproved, call.now), call.reread, call.now);
        (fin, if how == Raised then Refused(FinalizationRaised) else CeoDecided(CeoApproved))
      else (CeoRecorded(s, CeoRejected, call.now), CeoDecided(CeoRejected))
  }

  // ---------- runs ----------

  /** One delivery of a task, or one call of a decision endpoint, in any order and any number of times. */
  datatype Step =
    | DeliverIntake(intake: Intake, outage: nat)
    | DeliverResponse(response: ResponseRun)
    | DeliverApproval(start: StartRun)
    | CallSection(section: SectionCall)
    | CallCeo(ceo: CeoCall)

  function Take(s: State, step: Step): State {
    match step
    case DeliverIntake(i, outage) => ProcessIntake(s, i, outage)
    case DeliverResponse(run) => ProcessResponse(s, run)
    case DeliverApproval(run) => ProcessApproval(s, run)
    case CallSection(call) => DecideSection(s, call).0
    case CallCeo(call) => DecideCeo(s, call).0
  }

  /** A decision was accepted: the endpoint answered without an error. */
  predicate Accepted(s: State, step: Step) {
    || (step.CallSection? && !DecideSection(s, step.section).1.Refused?)
    || (step.CallCeo? && !DecideCeo(s, step.ceo).1.Refused?)
  }

  function Run(s: State, steps: seq<Step>): State
    decreases |steps|
  {
    if steps == [] then s else Run(Take(s, steps[0]), steps[1..])
  }
}
