/**
 The status machine of an RFP ticket. Every status write except the insert goes
 through `ValidateTransition`.
 */
module RfpLifecycle {

  datatype Status =
    | Analyzing
    | Discarded
    | IntakeComplete
    | Drafting
    | UnderEvaluation
    | WaitingForApproval
    | Done

  datatype TransitionResult = Allowed | AlreadyThere | FromTerminal | NotAllowed

  function AllowedTargets(s: Status): set<Status> {
    match s
    case Analyzing => {Discarded, IntakeComplete}
    case Discarded => {}
    case IntakeComplete => {Drafting}
    case Drafting => {UnderEvaluation}
    case UnderEvaluation => {WaitingForApproval}
    case WaitingForApproval => {Done}
    case Done => {}
  }

  function ValidateTransition(current: Status, target: Status): TransitionResult {
    if current == target then AlreadyThere
    else if AllowedTargets(current) == {} then FromTerminal
    else if target in AllowedTargets(current) then Allowed
    else NotAllowed
  }

  /** Position of a status in the life of a ticket; the two end states are the highest. */
  function Rank(s: Status): nat {
    match s
    case Analyzing => 0
    case IntakeComplete => 1
    case Drafting => 2
    case UnderEvaluation => 3
    case WaitingForApproval => 4
    case Done => 5
    case Discarded => 6
  }

  /** A status nothing leaves. */
  predicate Absorbing(s: Status) {
    s == Discarded || s == Done
  }

  /** The allowed edges are exactly the next status of the chain, plus discarding during analysis. */
  lemma AllowedIsNextStatus(current: Status, target: Status)
    ensures ValidateTransition(current, target) == Allowed <==>
            || (current == Analyzing && target == Discarded)
            || (target != Discarded && Rank(target) == Rank(current) + 1)
    ensures ValidateTransition(current, target) == Allowed ==> Rank(current) < Rank(target)
    ensures ValidateTransition(current, target) == FromTerminal ==> Absorbing(current)
    ensures Absorbing(current) ==> ValidateTransition(current, target) != Allowed
  {
    assert Discarded in AllowedTargets(Analyzing);
    assert Drafting in AllowedTargets(IntakeComplete);
    assert UnderEvaluation in AllowedTargets(Drafting);
    assert WaitingForApproval in AllowedTargets(UnderEvaluation);
    assert Done in AllowedTargets(WaitingForApproval);
  }
}
