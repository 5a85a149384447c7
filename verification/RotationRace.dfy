/**
 Rotations of refresh tokens with their two statements apart: the lookup with its checks, and the revocation
 with the new pair. Any number of requests interleave with each other and with the other endpoints.
 */
module RotationRace {
  import opened Options
  import opened RefreshTokens
  import opened TokenEffects
  import opened TokenRuns

  /** A request is between its two statements with the user it has read, or it has answered. */
  datatype Request = Checked(token: Token, user: User) | Refused | Answered(token: Token)

  datatype Race = Race(state: State, requests: map<nat, Request>)

  datatype RaceStep =
    | Check(id: nat, token: Token)
    | Finish(id: nat, jti: nat)
    | Other(step: Step)

  datatype At = At(step: RaceStep, now: int)

  predicate Possible(r: Race, step: RaceStep) {
    match step
    case Check(id, token) => id !in r.requests
    case Finish(id, jti) => id in r.requests && r.requests[id].Checked?
    case Other(other) => !other.Rotation? && (other.Login? ==> other.id in r.state.users)
  }

  function Checking(c: Config, r: Race, id: nat, token: Token, now: int): Race {
    r.(requests := r.requests[id :=
      if Rotatable(c, r.state, token, now) then Checked(token, r.state.users[token.user]) else Refused])
  }

  /** The revocation does not look at the record again. */
  function Finishing(c: Config, r: Race, id: nat, jti: nat, now: int): Race
    requires id in r.requests && r.requests[id].Checked?
  {
    var token, user := r.requests[id].token, r.requests[id].user;
    Race(Issue(c, Revoke(c, r.state, token), token.user, user, token.location, jti, now),
         r.requests[id :=
           if IssuePair(c, token.user, user, token.location, jti, now).Pair? then Answered(token) else Refused])
  }

  function OtherState(c: Config, s: State, step: Step, now: int): State
    requires step.Login? ==> step.id in s.users
  {
    match step
    case Login(id, location, jti) => Issue(c, s, id, s.users[id], location, jti, now)
    case Rotation(_, _) => s
    case LogoutWith(token) => Logout(c, s, token, now)
    case ResetRequest(token) => RequestReset(c, s, token)
    case ResetWith(token, password) => Reset(c, s, token, password, now)
    case SetUser(id, user) => s.(users := s.users[id := user])
    case RemoveUser(id) => s.(users := s.users - {id})
  }

  function Advance(c: Config, r: Race, t: At): Race
    requires Possible(r, t.step)
  {
    match t.step
    case Check(id, token) => Checking(c, r, id, token, t.now)
    case Finish(id, jti) => Finishing(c, r, id, jti, t.now)
    case Other(step) => r.(state := OtherState(c, r.state, step, t.now))
  }

  ghost predicate Races(c: Config, r: Race, steps: seq<At>, end: Race)
    decreases |steps|
  {
    if steps == [] then r == end
    else Possible(r, steps[0].step) && Races(c, Advance(c, r, steps[0]), steps[1..], end)
  }

  // ---------- what the two statements do ----------

  /** The other requests stay where they are. */
  ghost predicate OnlyRequest(r: Race, u: Race, id: nat) {
    forall other :: other != id ==>
      (other in u.requests <==> other in r.requests)
      && (other in r.requests ==> u.requests[other] == r.requests[other])
  }

  /**
   The lookup goes on with the user it has read exactly for a token that rotates at that moment; it writes
   nothing.
   */
  lemma CheckDecides(c: Config, r: Race, id: nat, token: Token, now: int, u: Race)
    requires u == Checking(c, r, id, token, now)
    ensures u.state == r.state && OnlyRequest(r, u, id) && id in u.requests
    ensures u.requests[id] ==
              if Holds(c, token, RefreshToken, now) && Current(c, r.state, token, now)
                 && !Refuses(c, r.state.users[token.user], token.location)
              then Checked(token, r.state.users[token.user]) else Refused
  {
    PresentableIs(c, r.state, token, now);
    if Presentable(c, r.state, token, now) && token.location.Some? {
      LoginIsChecked(c, r.state.users[token.user], token.location.value);
    }
  }

  /**
   The second statement revokes every record with the token's hash, whatever happened to it since the lookup,
   and adds the live record of a new token when the user that was read may still use the location.
   */
  lemma FinishExchanges(c: Config, r: Race, id: nat, jti: nat, now: int, u: Race)
    requires id in r.requests && r.requests[id].Checked? && u == Finishing(c, r, id, jti, now)
    ensures u.state.users == r.state.users && OnlyRequest(r, u, id) && id in u.requests
    ensures
      var token, user := r.requests[id].token, r.requests[id].user;
      if Refuses(c, user, token.location) then
        u.requests[id] == Refused && HashRevoked(r.state.table, u.state.table, c.hash(token), [])
      else
        && u.requests[id] == Answered(token)
        && exists access, refresh, record ::
             && PairIsFor(c, token.user, user, token.location, jti, now, access, refresh)
             && LiveRecordOf(c, refresh, record)
             && HashRevoked(r.state.table, u.state.table, c.hash(token), [record])
  {
    var token, user := r.requests[id].token, r.requests[id].user;
    var revoked := Revoke(c, r.state, token);
    IssueAdds(c, revoked, token.user, user, token.location, jti, now, u.state);
    match IssuePair(c, token.user, user, token.location, jti, now)
    case NotIssued(_) =>
    case Pair(access, refresh) =>
      var record := u.state.table[|revoked.table|];
      assert u.state.table == revoked.table + [record];
      assert HashRevoked(r.state.table, u.state.table, c.hash(token), [record]);
      assert PairIsFor(c, token.user, user, token.location, jti, now, access, refresh);
  }

  // ---------- records ----------

  /** Every request between its statements has found a record, and could still issue. */
  ghost predicate RaceInv(c: Config, r: Race) {
    forall id :: id in r.requests && r.requests[id].Checked? ==>
      var token, user := r.requests[id].token, r.requests[id].user;
      && ByHash(r.state.table, c.hash(token)).Some?
      && (token.location.Some? ==> ValidateLogin(c, user, token.location.value).Accepted?)
  }

  ghost predicate IsSpent(c: Config, s: State, token: Token) {
    ByHash(s.table, c.hash(token)).Some? && ByHash(s.table, c.hash(token)).value.revoked
  }

  /** No statement drops a record or makes a revoked one live again. */
  ghost predicate RecordKept(before: seq<Record>, after: seq<Record>, hash: int) {
    ByHash(before, hash).Some? ==>
      && ByHash(after, hash).Some?
      && (ByHash(before, hash).value.revoked ==> ByHash(after, hash).value.revoked)
  }

  lemma RevokeKeepsRecord(c: Config, s: State, token: Token, hash: int)
    ensures RecordKept(s.table, Revoke(c, s, token).table, hash)
  {
    RevokingKeepsSpent(HasHash(c.hash(token)), s.table, hash);
  }

  lemma IssueKeepsRecord(c: Config, s: State, id: int, user: User, location: Option<string>, jti: nat, now: int,
                         hash: int)
    ensures RecordKept(s.table, Issue(c, s, id, user, location, jti, now).table, hash)
  {
    if ByHash(s.table, hash).Some? { IssueKeepsSpent(c, s, id, user, location, jti, now, hash); }
  }

  lemma OtherKeepsRecord(c: Config, s: State, step: Step, now: int, hash: int)
    requires step.Login? ==> step.id in s.users
    ensures RecordKept(s.table, OtherState(c, s, step, now).table, hash)
  {
    match step
    case Login(id, location, jti) => IssueKeepsRecord(c, s, id, s.users[id], location, jti, now, hash);
    case Rotation(_, _) =>
    case LogoutWith(token) => RevokeKeepsRecord(c, s, token, hash);
    case ResetRequest(_) =>
    case ResetWith(token, _) => RevokingKeepsSpent(OfUser(token.user), s.table, hash);
    case SetUser(_, _) =>
    case RemoveUser(_) =>
  }

  lemma StepKeepsRecord(c: Config, r: Race, t: At, hash: int)
    requires Possible(r, t.step)
    ensures RecordKept(r.state.table, Advance(c, r, t).state.table, hash)
  {
    match t.step
    case Check(id, token) =>
    case Finish(id, jti) =>
      var token, user := r.requests[id].token, r.requests[id].user;
      RevokeKeepsRecord(c, r.state, token, hash);
      IssueKeepsRecord(c, Revoke(c, r.state, token), token.user, user, token.location, jti, t.now, hash);
    case Other(step) => OtherKeepsRecord(c, r.state, step, t.now, hash);
  }

  lemma StepKeepsRaceInv(c: Config, r: Race, t: At)
    requires RaceInv(c, r) && Possible(r, t.step)
    ensures RaceInv(c, Advance(c, r, t))
  {
    var after := Advance(c, r, t);
    forall id | id in after.requests && after.requests[id].Checked?
      ensures ByHash(after.state.table, c.hash(after.requests[id].token)).Some?
    {
      StepKeepsRecord(c, r, t, c.hash(after.requests[id].token));
    }
  }

  /** The second statement always answers with a new pair, and the token is spent. */
  lemma FinishAnswers(c: Config, r: Race, id: nat, jti: nat, now: int)
    requires RaceInv(c, r) && id in r.requests && r.requests[id].Checked?
    ensures
      var token := r.requests[id].token;
      var after := Finishing(c, r, id, jti, now);
      after.requests == r.requests[id := Answered(token)] && IsSpent(c, after.state, token)
  {
    var token, user := r.requests[id].token, r.requests[id].user;
    IndexFinds(c, r.state.table, c.hash(token));
    RevokingKeepsSpent(HasHash(c.hash(token)), r.state.table, c.hash(token));
    IssueKeepsSpent(c, Revoke(c, r.state, token), token.user, user, token.location, jti, now, c.hash(token));
  }

  // ---------- when a second request rotates ----------

  predicate Waits(r: Race, id: nat, token: Token) {
    id in r.requests && r.requests[id].Checked? && r.requests[id].token == token
  }

  predicate HasRotated(r: Race, id: nat, token: Token) {
    id in r.requests && r.requests[id] == Answered(token)
  }

  /** A request that has not passed its check when the token is spent never rotates it. */
  lemma {:induction false} LateNeverRotates(c: Config, r: Race, steps: seq<At>, end: Race, id: nat, token: Token)
    requires Races(c, r, steps, end) && IsSpent(c, r.state, token)
    requires !Waits(r, id, token) && !HasRotated(r, id, token)
    ensures !HasRotated(end, id, token)
    decreases |steps|
  {
    if steps != [] {
      StepKeepsRecord(c, r, steps[0], c.hash(token));
      LateNeverRotates(c, Advance(c, r, steps[0]), steps[1..], end, id, token);
    }
  }

  ghost predicate RunRotates(c: Config, r: Race, steps: seq<At>, end: Race, id: nat, token: Token) {
    Races(c, r, steps, end) && HasRotated(end, id, token)
  }

  /** Once a token is spent, exactly the requests that have already passed their check can still rotate it. */
  lemma LateRotationExactly(c: Config, r: Race, id: nat, token: Token)
    requires RaceInv(c, r) && IsSpent(c, r.state, token) && !HasRotated(r, id, token)
    ensures (exists steps, end :: RunRotates(c, r, steps, end, id, token)) <==> Waits(r, id, token)
  {
    if Waits(r, id, token) {
      var step := At(Finish(id, 0), 0);
      var end := Advance(c, r, step);
      FinishAnswers(c, r, id, 0, 0);
      assert [step][1..] == [] && Races(c, end, [], end);
      assert RunRotates(c, r, [step], end, id, token);
    } else {
      forall steps, end | Races(c, r, steps, end)
        ensures !RunRotates(c, r, steps, end, id, token)
      {
        LateNeverRotates(c, r, steps, end, id, token);
      }
    }
  }

  /** Some state of the run has both requests between their statements. */
  ghost predicate Overlap(c: Config, r: Race, steps: seq<At>, a: nat, b: nat, token: Token)
    decreases |steps|
  {
    || (Waits(r, a, token) && Waits(r, b, token))
    || (steps != [] && Possible(r, steps[0].step) && Overlap(c, Advance(c, r, steps[0]), steps[1..], a, b, token))
  }

  lemma RotatingSpends(c: Config, r: Race, t: At, id: nat, token: Token)
    requires RaceInv(c, r) && Possible(r, t.step)
    requires !HasRotated(r, id, token) && HasRotated(Advance(c, r, t), id, token)
    ensures Waits(r, id, token) && IsSpent(c, Advance(c, r, t).state, token)
    ensures forall other :: other != id ==> Waits(Advance(c, r, t), other, token) == Waits(r, other, token)
    ensures forall other :: other != id ==> HasRotated(Advance(c, r, t), other, token) == HasRotated(r, other, token)
  {
    if t.step.Finish? && Waits(r, t.step.id, r.requests[t.step.id].token) {
      FinishAnswers(c, r, t.step.id, t.step.jti, t.now);
    }
  }

  /** Two requests that both rotate one token were between their statements at the same time. */
  lemma {:induction false} RotatingTwiceOverlaps(c: Config, r: Race, steps: seq<At>, end: Race, a: nat, b: nat,
                                                 token: Token)
    requires RaceInv(c, r) && Races(c, r, steps, end) && a != b
    requires !HasRotated(r, a, token) && !HasRotated(r, b, token)
    requires HasRotated(end, a, token) && HasRotated(end, b, token)
    ensures Overlap(c, r, steps, a, b, token)
    decreases |steps|
  {
    var next := Advance(c, r, steps[0]);
    StepKeepsRaceInv(c, r, steps[0]);
    if HasRotated(next, a, token) {
      RotatingSpends(c, r, steps[0], a, token);
      if !Waits(r, b, token) { LateNeverRotates(c, next, steps[1..], end, b, token); }
    } else if HasRotated(next, b, token) {
      RotatingSpends(c, r, steps[0], b, token);
      if !Waits(r, a, token) { LateNeverRotates(c, next, steps[1..], end, a, token); }
    } else {
      RotatingTwiceOverlaps(c, next, steps[1..], end, a, b, token);
    }
  }

  /** And any two requests between their statements on one token can both rotate it. */
  lemma OverlapRotatesTwice(c: Config, r: Race, a: nat, b: nat, token: Token, now: int)
    returns (steps: seq<At>, end: Race)
    requires RaceInv(c, r) && a != b && Waits(r, a, token) && Waits(r, b, token)
    ensures Races(c, r, steps, end) && HasRotated(end, a, token) && HasRotated(end, b, token)
  {
    var first, second := At(Finish(a, 0), now), At(Finish(b, 1), now);
    var middle := Advance(c, r, first);
    FinishAnswers(c, r, a, 0, now);
    StepKeepsRaceInv(c, r, first);
    end := Advance(c, middle, second);
    FinishAnswers(c, middle, b, 1, now);
    steps := [first, second];
    assert steps[1..] == [second] && [second][1..] == [] && Races(c, end, [], end);
    assert Races(c, middle, [second], end);
  }

  /** Whenever a token can rotate, two requests can pass their checks before either revokes it. */
  lemma TokenCanRotateTwice(c: Config, r: Race, a: nat, b: nat, token: Token, now: int)
    returns (steps: seq<At>, end: Race)
    requires RaceInv(c, r) && a != b && a !in r.requests && b !in r.requests && Rotatable(c, r.state, token, now)
    ensures Races(c, r, steps, end) && HasRotated(end, a, token) && HasRotated(end, b, token)
  {
    var first, second := At(Check(a, token), now), At(Check(b, token), now);
    var one := Advance(c, r, first);
    StepKeepsRaceInv(c, r, first);
    var two := Advance(c, one, second);
    StepKeepsRaceInv(c, one, second);
    var rest: seq<At>;
    rest, end := OverlapRotatesTwice(c, two, a, b, token, now);
    assert ([second] + rest)[1..] == rest && Races(c, one, [second] + rest, end);
    steps := [first] + ([second] + rest);
    assert steps[1..] == [second] + rest;
  }
}
