/**
 One department's approval thread: it pauses to show a draft, and each human answer either
 ends it or regenerates the draft and pauses again, a bounded number of times.
 The checkpointer is reduced to the saved thread state and the id of the live pause.
 */
module RfpThread {
  import opened Options
  import opened RfpArbitration

  const ITERATION_LIMIT: nat := 3

  datatype Outcome = OutcomeApproved | OutcomeExhausted

  datatype Action = Approve | Reject | RequestChanges

  datatype Section = Section(
    draft: Option<string>,
    numbers: Numbers,
    forced: Option<bool>,
    arbiterFeedback: Option<seq<Trigger>>,
    humanFeedback: Option<string>)

  /** What the approver is shown at a pause. */
  datatype Shown = Shown(
    draft: Option<string>,
    numbers: Numbers,
    forced: bool,
    arbiterFeedback: Option<seq<Trigger>>,
    reworkCount: nat)

  datatype Thread =
    | Paused(section: Section, rework: nat, interruptId: nat)
    | Ended(section: Section, rework: nat, outcome: Outcome)

  /** The language model's answer to a regeneration prompt: any text and numbers, or a failure. */
  datatype Reply = Failed | Replied(draft: string, numbers: Numbers)

  /** A missing draft reads as the empty string. */
  function Text(draft: Option<string>): string {
    if draft.None? then "" else draft.value
  }

  function OnPause(t: Thread): Shown
    requires t.Paused?
  {
    Shown(t.section.draft, t.section.numbers, t.section.forced == Some(true),
          t.section.arbiterFeedback, t.rework)
  }

  datatype Decided = Finish(outcome: Outcome) | Rework(stamped: Section)

  /** The approve node after the pause: the answer decides between the two ends and a rework. */
  function ApproveNode(section: Section, rework: nat, action: Action, feedback: Option<string>): Decided {
    match action
    case Approve => Finish(OutcomeApproved)
    case _ =>
      if rework >= ITERATION_LIMIT then Finish(OutcomeExhausted)
      else if Text(feedback) != "" then Rework(section.(humanFeedback := feedback))
      else Rework(section)
  }

  /** The regen node: an empty or failed reply keeps the old draft; numbers are always replaced. */
  function RegenNode(section: Section, reply: Reply): Section {
    var draft := if reply.Failed? || reply.draft == "" then Text(section.draft) else reply.draft;
    section.(draft := Some(draft),
             numbers := if reply.Failed? then NULL_NUMBERS else reply.numbers,
             forced := None)
  }

  /** Resuming a pause by its id; `freshId` names the pause a rework ends in. Other ids resume nothing. */
  function Resume(t: Thread, id: nat, action: Action, feedback: Option<string>, reply: Reply, freshId: nat): Thread {
    if !t.Paused? || t.interruptId != id then t
    else
      match ApproveNode(t.section, t.rework, action, feedback)
      case Finish(outcome) => Ended(t.section, t.rework, outcome)
      case Rework(stamped) => Paused(RegenNode(stamped, reply), t.rework + 1, freshId)
  }

  /** Answering a whole conversation: each answer resumes the pause the previous one left. */
  datatype Answer = Answer(action: Action, feedback: Option<string>, reply: Reply)

  function Converse(t: Thread, answers: seq<Answer>, freshId: nat): Thread
    decreases |answers|
  {
    if answers == [] || t.Ended? then t
    else
      var a := answers[0];
      Converse(Resume(t, t.interruptId, a.action, a.feedback, a.reply, freshId), answers[1..], freshId + 1)
  }

  /**
   The bounded loop, over every conversation: a thread started at count zero never reworks more
   than the limit, is exhausted only at the limit, and has ended once limit + 1 answers were given.
   */
  lemma {:induction false} ConversationIsBounded(t: Thread, answers: seq<Answer>, freshId: nat)
    requires t.rework <= ITERATION_LIMIT
    requires t.Ended? && t.outcome == OutcomeExhausted ==> t.rework == ITERATION_LIMIT
    ensures
      var end := Converse(t, answers, freshId);
      && t.rework <= end.rework <= ITERATION_LIMIT
      && (end.Ended? && end.outcome == OutcomeExhausted ==> end.rework == ITERATION_LIMIT)
      && (end.Paused? ==> end.rework == t.rework + |answers|)
      && (|answers| + t.rework > ITERATION_LIMIT ==> end.Ended?)
    decreases |answers|
  {
    if answers != [] && t.Paused? {
      var a := answers[0];
      ConversationIsBounded(Resume(t, t.interruptId, a.action, a.feedback, a.reply, freshId), answers[1..],
                            freshId + 1);
    }
  }

  /**
   A conversation that ends does so from one of its pauses, keeping the section shown there:
   approval never changes the text, and the thread is approved exactly when that pause was
   answered with an approval.
   */
  lemma {:induction false} EndedTextWasShown(t: Thread, answers: seq<Answer>, freshId: nat)
    requires t.Paused? && Converse(t, answers, freshId).Ended?
    ensures exists k: nat :: k < |answers| && EndsFrom(t, answers, freshId, k)
    decreases |answers|
  {
    var a := answers[0];
    var next := Resume(t, t.interruptId, a.action, a.feedback, a.reply, freshId);
    if next.Ended? {
      assert EndsFrom(t, answers, freshId, 0);
    } else {
      EndedTextWasShown(next, answers[1..], freshId + 1);
      var k: nat :| k < |answers[1..]| && EndsFrom(next, answers[1..], freshId + 1, k);
      assert answers[..k + 1][1..] == answers[1..][..k];
      assert EndsFrom(t, answers, freshId, k + 1);
    }
  }

  ghost predicate EndsFrom(t: Thread, answers: seq<Answer>, freshId: nat, k: nat)
    requires k < |answers|
  {
    var shown, end := Converse(t, answers[..k], freshId), Converse(t, answers, freshId);
    && shown.Paused? && end.Ended?
    && shown.section == end.section && shown.rework == end.rework
    && (end.outcome == OutcomeApproved <==> answers[k].action == Approve)
  }
}
