/** Refresh tokens over whole runs: rotation at most once, one live token for each login, and the reset. */
module TokenRuns {
  import opened Options
  import opened RefreshTokens

  // ---------- the machine ----------

  /** History beside each record: the token itself and the login it descends from. */
  datatype Origin = Origin(token: Token, login: nat)

  datatype World = World(state: State, origins: seq<Origin>)

  datatype Step =
    | Login(id: int, location: Option<string>, jti: nat)
    | Rotation(token: Token, jti: nat)
    | LogoutWith(token: Token)
    | ResetRequest(token: Token)
    | ResetWith(token: Token, password: string)
    | SetUser(id: int, user: User)
    | RemoveUser(id: int)

  datatype Timed = Timed(step: Step, now: int)

  ghost predicate Injective(hash: Token -> int) {
    forall a, b :: hash(a) == hash(b) ==> a == b
  }

  predicate UnusedJti(w: World, jti: nat) {
    forall o :: o in w.origins ==> o.token.jti != jti
  }

  predicate Enabled(w: World, step: Step) {
    && (step.Login? ==> step.id in w.state.users && UnusedJti(w, step.jti))
    && (step.Rotation? ==> UnusedJti(w, step.jti))
  }

  function LoginOf(c: Config, w: World, token: Token): nat {
    var i := IndexOf(c, w.state.table, c.hash(token));
    if i < |w.origins| then w.origins[i].login else 0
  }

  function IndexOf(c: Config, table: seq<Record>, hash: int): (i: nat)
    ensures i <= |table|
  {
    if table == [] || table[0].hash == hash then 0 else 1 + IndexOf(c, table[1..], hash)
  }

  function Issuing(c: Config, w: World, id: int, location: Option<string>, jti: nat, now: int): World
    requires id in w.state.users
  {
    var issued := IssuePair(c, id, w.state.users[id], location, jti, now);
    World(Issue(c, w.state, id, w.state.users[id], location, jti, now),
          w.origins + (if issued.Pair? then [Origin(issued.refresh, |w.origins|)] else []))
  }

  function Rotating(c: Config, w: World, token: Token, jti: nat, now: int): World {
    if !Rotatable(c, w.state, token, now) then w
    else
      var issued := IssuePair(c, token.user, w.state.users[token.user], token.location, jti, now);
      World(Rotate(c, w.state, token, jti, now),
            w.origins + (if issued.Pair? then [Origin(issued.refresh, LoginOf(c, w, token))] else []))
  }

  function Apply(c: Config, w: World, t: Timed): World
    requires Enabled(w, t.step)
  {
    match t.step
    case Login(id, location, jti) => Issuing(c, w, id, location, jti, t.now)
    case Rotation(token, jti) => Rotating(c, w, token, jti, t.now)
    case LogoutWith(token) => w.(state := Logout(c, w.state, token, t.now))
    case ResetRequest(token) => w.(state := RequestReset(c, w.state, token))
    case ResetWith(token, password) => w.(state := Reset(c, w.state, token, password, t.now))
    case SetUser(id, user) => w.(state := w.state.(users := w.state.users[id := user]))
    case RemoveUser(id) => w.(state := w.state.(users := w.state.users - {id}))
  }

  ghost predicate Runs(c: Config, w: World, steps: seq<Timed>, end: World)
    decreases |steps|
  {
    if steps == [] then w == end
    else Enabled(w, steps[0].step) && Runs(c, Apply(c, w, steps[0]), steps[1..], end)
  }

  // ---------- the invariant ----------

  /** Record `i` is the record of the token that was issued as number `i`. */
  ghost predicate Recorded(c: Config, w: World) {
    && |w.origins| == |w.state.table|
    && forall i :: 0 <= i < |w.origins| ==>
         && w.state.table[i].hash == c.hash(w.origins[i].token)
         && w.state.table[i].userId == w.origins[i].token.user
  }

  /** No random part was used twice. */
  ghost predicate DistinctTokens(w: World) {
    forall i, j :: 0 <= i < j < |w.origins| ==> w.origins[i].token.jti != w.origins[j].token.jti
  }

  /** Of two tokens of one login the older is revoked, and both carry the same user and location. */
  ghost predicate ChainsSound(w: World)
    requires |w.origins| == |w.state.table|
  {
    && (forall i :: 0 <= i < |w.origins| ==> w.origins[i].login < |w.origins|)
    && (forall i, j :: 0 <= i < j < |w.origins| && w.origins[i].login == w.origins[j].login ==>
        w.state.table[i].revoked)
    && (forall i, j :: 0 <= i < j < |w.origins| && w.origins[i].login == w.origins[j].login ==>
          && w.origins[i].token.user == w.origins[j].token.user
          && w.origins[i].token.location == w.origins[j].token.location)
  }

  /** Stored locations are canonical, as issuing normalizes them. */
  ghost predicate LocationsCanonical(c: Config, w: World) {
    forall o :: o in w.origins && o.token.location.Some? ==> o.token.location.value in c.canonical
  }

  ghost predicate Inv(c: Config, w: World) {
    Recorded(c, w) && DistinctTokens(w) && ChainsSound(w) && LocationsCanonical(c, w)
  }

  /** The hash is injective and no canonical slug has surrounding blanks. */
  ghost predicate SoundConfig(c: Config) {
    Injective(c.hash) && forall slug :: slug in c.canonical ==> c.strip(slug) == slug
  }

  // ---------- finding records ----------

  lemma {:induction false} IndexFinds(c: Config, table: seq<Record>, hash: int)
    ensures
      var i := IndexOf(c, table, hash);
      && (i < |table| ==> table[i].hash == hash && ByHash(table, hash) == Some(table[i]))
      && (i == |table| ==> ByHash(table, hash) == None && forall j :: 0 <= j < |table| ==> table[j].hash != hash)
  {
    if table != [] && table[0].hash != hash {
      IndexFinds(c, table[1..], hash);
      assert forall j :: 0 < j < |table| ==> table[j] == table[1..][j - 1];
    }
  }

  /** The record found for a token is its own, and the only one with its hash. */
  lemma TokenIsAt(c: Config, w: World, token: Token, i: nat)
    requires SoundConfig(c) && Inv(c, w) && i < |w.origins| && w.state.table[i].hash == c.hash(token)
    ensures w.origins[i].token == token
    ensures forall j :: 0 <= j < |w.origins| && w.state.table[j].hash == c.hash(token) ==> j == i
    ensures ByHash(w.state.table, c.hash(token)) == Some(w.state.table[i])
    ensures IndexOf(c, w.state.table, c.hash(token)) == i
  {
    assert Recorded(c, w);
    assert w.origins[i].token == token;
    forall j | 0 <= j < |w.origins| && w.state.table[j].hash == c.hash(token) ensures j == i {
      assert w.origins[j].token == token;
    }
    IndexFinds(c, w.state.table, c.hash(token));
  }

  // ---------- every step keeps the invariant ----------

  /** Revoking records changes nothing else about them. */
  lemma RevokingKeepsInv(c: Config, w: World, p: Record -> bool)
    requires Inv(c, w)
    ensures Inv(c, w.(state := w.state.(table := RevokeIf(p, w.state.table))))
  {
  }

  lemma AppendingKeepsInv(c: Config, w: World, o: Origin)
    requires Inv(c, w) && UnusedJti(w, o.token.jti) && o.login <= |w.origins|
    requires forall i :: 0 <= i < |w.origins| && w.origins[i].login == o.login ==>
               && w.state.table[i].revoked && w.origins[i].token.user == o.token.user
               && w.origins[i].token.location == o.token.location
    requires o.token.location.Some? ==> o.token.location.value in c.canonical
    ensures Inv(c, World(AddRecord(c, w.state, o.token), w.origins + [o]))
  {
    forall i | 0 <= i < |w.origins| ensures w.origins[i].token.jti != o.token.jti {
      assert w.origins[i] in w.origins;
    }
  }

  lemma LoginKeepsInv(c: Config, w: World, id: int, location: Option<string>, jti: nat, now: int)
    requires Inv(c, w) && id in w.state.users && UnusedJti(w, jti)
    ensures Inv(c, Issuing(c, w, id, location, jti, now))
  {
    var issued := IssuePair(c, id, w.state.users[id], location, jti, now);
    if issued.Pair? {
      AppendingKeepsInv(c, w, Origin(issued.refresh, |w.origins|));
    } else {
      assert w.origins + [] == w.origins;
    }
  }

  /** The successor of a rotated token carries its user and its location. */
  lemma SuccessorCarriesLocation(c: Config, w: World, token: Token, jti: nat, now: int)
    requires SoundConfig(c) && Inv(c, w) && Rotatable(c, w.state, token, now)
    ensures
      var r := RotationOf(c, w.state, token, jti, now);
      && r.Rotated? && r.refresh.user == token.user && r.refresh.location == token.location
      && r.access.user == token.user && r.access.location == token.location
      && IssuePair(c, token.user, w.state.users[token.user], token.location, jti, now) == Pair(r.access, r.refresh)
      && (token.location.Some? ==> token.location.value in c.canonical)
  {
    var i := IndexOf(c, w.state.table, c.hash(token));
    IndexFinds(c, w.state.table, c.hash(token));
    TokenIsAt(c, w, token, i);
    assert w.origins[i] in w.origins;
  }

  lemma RotationKeepsInv(c: Config, w: World, token: Token, jti: nat, now: int)
    requires SoundConfig(c) && Inv(c, w) && UnusedJti(w, jti)
    ensures Inv(c, Rotating(c, w, token, jti, now))
  {
    if Rotatable(c, w.state, token, now) {
      SuccessorCarriesLocation(c, w, token, jti, now);
      var i := IndexOf(c, w.state.table, c.hash(token));
      IndexFinds(c, w.state.table, c.hash(token));
      TokenIsAt(c, w, token, i);
      var revoked := w.(state := Revoke(c, w.state, token));
      RevokingKeepsInv(c, w, HasHash(c.hash(token)));
      LoginIsSpent(c, w, i);
      AppendingKeepsInv(c, revoked, Origin(RotationOf(c, w.state, token, jti, now).refresh, w.origins[i].login));
    }
  }

  /** Once the live token of a login is revoked, all of that login are, and they agree with it. */
  lemma LoginIsSpent(c: Config, w: World, i: nat)
    requires Inv(c, w) && i < |w.origins| && !w.state.table[i].revoked
    ensures forall j :: 0 <= j < |w.origins| && w.origins[j].login == w.origins[i].login ==>
              && (j != i ==> w.state.table[j].revoked)
              && w.origins[j].token.user == w.origins[i].token.user
              && w.origins[j].token.location == w.origins[i].token.location
  {
  }

  lemma StepKeepsInv(c: Config, w: World, t: Timed)
    requires SoundConfig(c) && Inv(c, w) && Enabled(w, t.step)
    ensures Inv(c, Apply(c, w, t))
  {
    match t.step
    case Login(id, location, jti) => LoginKeepsInv(c, w, id, location, jti, t.now);
    case Rotation(token, jti) => RotationKeepsInv(c, w, token, jti, t.now);
    case LogoutWith(token) => RevokingKeepsInv(c, w, HasHash(c.hash(token)));
    case ResetRequest(_) =>
    case ResetWith(token, _) => RevokingKeepsInv(c, w, OfUser(token.user));
    case SetUser(_, _) =>
    case RemoveUser(_) =>
  }

  lemma {:induction false} RunKeepsInv(c: Config, w: World, steps: seq<Timed>, end: World)
    requires SoundConfig(c) && Inv(c, w) && Runs(c, w, steps, end)
    ensures Inv(c, end)
    decreases |steps|
  {
    if steps != [] {
      StepKeepsInv(c, w, steps[0]);
      RunKeepsInv(c, Apply(c, w, steps[0]), steps[1..], end);
    }
  }

  const START: World := World(State(map[], []), [])

  // ---------- one live token for each login ----------

  /** At any time a login has at most one token that is not revoked, and its tokens share user and location. */
  lemma OneLiveToken(c: Config, steps: seq<Timed>, end: World, i: nat, j: nat)
    requires SoundConfig(c) && Runs(c, START, steps, end)
    requires i < |end.origins| && j < |end.origins| && end.origins[i].login == end.origins[j].login
    ensures |end.state.table| == |end.origins|
    ensures !end.state.table[i].revoked && !end.state.table[j].revoked ==> i == j
    ensures end.origins[i].token.user == end.origins[j].token.user
    ensures end.origins[i].token.location == end.origins[j].token.location
  {
    RunKeepsInv(c, START, steps, end);
    if i < j {
      assert end.origins[i].login == end.origins[j].login;
    } else if j < i {
      assert end.origins[j].login == end.origins[i].login;
    }
  }

  // ---------- a token rotates at most once ----------

  /** The token has a record and that record is revoked. */
  ghost predicate Spent(c: Config, w: World, token: Token) {
    ByHash(w.state.table, c.hash(token)).Some? && ByHash(w.state.table, c.hash(token)).value.revoked
  }

  lemma {:induction false} RevokingKeepsSpent(p: Record -> bool, table: seq<Record>, hash: int)
    ensures ByHash(RevokeIf(p, table), hash)
         == if ByHash(table, hash).None? then None
            else if p(ByHash(table, hash).value) then Some(ByHash(table, hash).value.(revoked := true))
            else ByHash(table, hash)
  {
    if table != [] {
      RevokingKeepsSpent(p, table[1..], hash);
      var r := RevokeIf(p, table);
      assert r[1..] == RevokeIf(p, table[1..]);
    }
  }

  lemma {:induction false} AppendingKeepsFound(table: seq<Record>, r: Record, hash: int)
    ensures ByHash(table, hash).Some? ==> ByHash(table + [r], hash) == ByHash(table, hash)
  {
    if table != [] {
      AppendingKeepsFound(table[1..], r, hash);
      assert (table + [r])[1..] == table[1..] + [r];
    }
  }

  /** Nothing un-revokes a token. */
  lemma StepKeepsSpent(c: Config, w: World, t: Timed, token: Token)
    requires Enabled(w, t.step) && Spent(c, w, token)
    ensures Spent(c, Apply(c, w, t), token)
  {
    var h := c.hash(token);
    match t.step
    case Login(id, location, jti) => IssueKeepsSpent(c, w.state, id, w.state.users[id], location, jti, t.now, h);
    case Rotation(other, jti) =>
      if Rotatable(c, w.state, other, t.now) {
        RevokingKeepsSpent(HasHash(c.hash(other)), w.state.table, h);
        IssueKeepsSpent(c, Revoke(c, w.state, other), other.user, w.state.users[other.user], other.location, jti, t.now,
                        h);
      }
    case LogoutWith(other) => RevokingKeepsSpent(HasHash(c.hash(other)), w.state.table, h);
    case ResetRequest(_) =>
    case ResetWith(other, _) => RevokingKeepsSpent(OfUser(other.user), w.state.table, h);
    case SetUser(_, _) =>
    case RemoveUser(_) =>
  }

  lemma IssueKeepsSpent(c: Config, s: State, id: int, user: User, location: Option<string>, jti: nat, now: int,
                        hash: int)
    requires ByHash(s.table, hash).Some?
    ensures ByHash(Issue(c, s, id, user, location, jti, now).table, hash) == ByHash(s.table, hash)
  {
    var issued := IssuePair(c, id, user, location, jti, now);
    if issued.Pair? {
      AppendingKeepsFound(s.table, Record(issued.refresh.user, c.hash(issued.refresh), issued.refresh.expires, false),
                          hash);
    }
  }

  /** A successful rotation spends the token it was given. */
  lemma RotationSpends(c: Config, w: World, token: Token, jti: nat, now: int)
    requires Rotatable(c, w.state, token, now)
    ensures Spent(c, Rotating(c, w, token, jti, now), token)
  {
    IndexFinds(c, w.state.table, c.hash(token));
    RevokingKeepsSpent(HasHash(c.hash(token)), w.state.table, c.hash(token));
    IssueKeepsSpent(c, Revoke(c, w.state, token), token.user, w.state.users[token.user], token.location, jti, now,
                    c.hash(token));
  }

  /** How often a token is rotated successfully in a run. */
  function Rotations(c: Config, w: World, steps: seq<Timed>, token: Token): nat
    decreases |steps|
  {
    if steps == [] || !Enabled(w, steps[0].step) then 0
    else
      (if steps[0].step.Rotation? && steps[0].step.token == token && Rotatable(c, w.state, token, steps[0].now)
       then 1 else 0)
      + Rotations(c, Apply(c, w, steps[0]), steps[1..], token)
  }

  lemma {:induction false} SpentNeverRotates(c: Config, w: World, steps: seq<Timed>, token: Token)
    requires Spent(c, w, token)
    ensures Rotations(c, w, steps, token) == 0
    decreases |steps|
  {
    if steps != [] && Enabled(w, steps[0].step) {
      StepKeepsSpent(c, w, steps[0], token);
      SpentNeverRotates(c, Apply(c, w, steps[0]), steps[1..], token);
    }
  }

  /** In any run, from any state, a refresh token rotates at most once. */
  lemma {:induction false} RotatesAtMostOnce(c: Config, w: World, steps: seq<Timed>, token: Token)
    ensures Rotations(c, w, steps, token) <= 1
    decreases |steps|
  {
    if steps != [] && Enabled(w, steps[0].step) {
      var step := steps[0].step;
      if step.Rotation? && step.token == token && Rotatable(c, w.state, token, steps[0].now) {
        RotationSpends(c, w, token, step.jti, steps[0].now);
        SpentNeverRotates(c, Apply(c, w, steps[0]), steps[1..], token);
      } else {
        RotatesAtMostOnce(c, Apply(c, w, steps[0]), steps[1..], token);
      }
    }
  }

  // ---------- the password reset ----------

  /** After a successful reset no token issued to that user before ever rotates, whatever happens later. */
  lemma ResetEndsEarlierTokens(c: Config, before: seq<Timed>, w: World, reset: Token, password: string, now: int,
                               later: seq<Timed>, i: nat)
    requires SoundConfig(c) && Runs(c, START, before, w) && Resettable(c, w.state, reset, now)
    requires i < |w.origins| && w.origins[i].token.user == reset.user
    ensures
      var after := Apply(c, w, Timed(ResetWith(reset, password), now));
      Rotations(c, after, later, w.origins[i].token) == 0
  {
    RunKeepsInv(c, START, before, w);
    var token := w.origins[i].token;
    TokenIsAt(c, w, token, i);
    RevokingKeepsSpent(OfUser(reset.user), w.state.table, c.hash(token));
    SpentNeverRotates(c, Apply(c, w, Timed(ResetWith(reset, password), now)), later, token);
  }

  /** A reset token works once: afterwards the user has no reset hash until a new request. */
  lemma ResetTokenIsUsedUp(c: Config, s: State, reset: Token, password: string, now: int, later: int)
    requires Resettable(c, s, reset, now)
    ensures !Resettable(c, Reset(c, s, reset, password, now), reset, later)
  {
  }

  /** An issued token never fails with an unknown slug. */
  lemma IssuedSlugIsKnown(c: Config, w: World, token: Token, jti: nat, now: int)
    requires SoundConfig(c) && Inv(c, w)
    ensures RotationOf(c, w.state, token, jti, now) != UnknownSlug
  {
    if Presentable(c, w.state, token, now) {
      var i := IndexOf(c, w.state.table, c.hash(token));
      IndexFinds(c, w.state.table, c.hash(token));
      TokenIsAt(c, w, token, i);
      assert w.origins[i] in w.origins;
    }
  }
}
