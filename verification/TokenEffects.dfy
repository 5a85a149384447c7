/** What issuing, rotating, logging out and resetting leave in the tables and in the tokens, field by field. */
module TokenEffects {
  import opened Options
  import opened RefreshTokens

  // ---------- records ----------

  /** `r` is the earliest record with the hash. */
  ghost predicate FirstWith(table: seq<Record>, hash: int, r: Record) {
    exists i :: 0 <= i < |table| && table[i] == r && r.hash == hash && forall j :: 0 <= j < i ==> table[j].hash != hash
  }

  lemma {:induction false} ByHashIsFirst(table: seq<Record>, hash: int)
    ensures
      var r := ByHash(table, hash);
      if r.Some? then FirstWith(table, hash, r.value) else forall x :: x in table ==> x.hash != hash
  {
    if table != [] && table[0].hash != hash {
      ByHashIsFirst(table[1..], hash);
      assert table == [table[0]] + table[1..];
      var r := ByHash(table[1..], hash);
      if r.Some? {
        var i :| 0 <= i < |table[1..]| && table[1..][i] == r.value && r.value.hash == hash
                 && forall j :: 0 <= j < i ==> table[1..][j].hash != hash;
        assert table[i + 1] == r.value;
        assert forall j :: 0 < j < i + 1 ==> table[j] == table[1..][j - 1];
      }
    }
  }

  lemma FirstIsOne(table: seq<Record>, hash: int, r: Record, q: Record)
    requires FirstWith(table, hash, r) && FirstWith(table, hash, q)
    ensures r == q
  {
  }

  /** The record is now revoked, or as it was. */
  predicate RevokedWhen(before: Record, after: Record, hit: bool) {
    && after.userId == before.userId && after.hash == before.hash && after.expires == before.expires
    && after.revoked == (before.revoked || hit)
  }

  /** Exactly the records with the hash are revoked, and `added` follows. */
  ghost predicate HashRevoked(before: seq<Record>, after: seq<Record>, hash: int, added: seq<Record>) {
    && |after| == |before| + |added| && after[|before|..] == added
    && forall i :: 0 <= i < |before| ==> RevokedWhen(before[i], after[i], before[i].hash == hash)
  }

  /** Exactly the records of the user are revoked. */
  ghost predicate UserRevoked(before: seq<Record>, after: seq<Record>, user: int) {
    |after| == |before| && forall i :: 0 <= i < |before| ==> RevokedWhen(before[i], after[i], before[i].userId == user)
  }

  // ---------- the login location ----------

  /** An admin may use every known location, anyone else the assigned ones. */
  predicate MayUse(c: Config, user: User, slug: string) {
    slug in c.canonical && (user.isAdmin || slug in user.locations)
  }

  /** The outcome of the check has its reason; the reasons exclude each other. */
  lemma LoginIsChecked(c: Config, user: User, slug: string)
    ensures
      var name := c.strip(slug);
      match ValidateLogin(c, user, slug)
      case Accepted(result) => result == name && MayUse(c, user, name)
      case Denied(InvalidSlug) => name !in c.canonical
      case Denied(NoLocationAssigned) => name in c.canonical && !user.isAdmin && user.locations == []
      case Denied(NotAuthorized) =>
        name in c.canonical && !user.isAdmin && user.locations != [] && name !in user.locations
  {
  }

  // ---------- issuing ----------

  /** The location a token may carry: none asked for, or the trimmed name of one the user may use. */
  predicate Grants(c: Config, user: User, asked: Option<string>, granted: Option<string>) {
    if asked.None? then granted == None
    else granted == Some(c.strip(asked.value)) && MayUse(c, user, c.strip(asked.value))
  }

  predicate Refuses(c: Config, user: User, asked: Option<string>) {
    asked.Some? && !MayUse(c, user, c.strip(asked.value))
  }

  /** The pair speaks of the user, with the user's admin flag and the granted location, for a lifetime from now. */
  ghost predicate PairIsFor(c: Config, id: int, user: User, asked: Option<string>, jti: nat, now: int,
                            access: AccessToken, refresh: Token)
  {
    && access.user == id && access.isAdmin == user.isAdmin && access.location == refresh.location
    && refresh.kind == RefreshToken && refresh.user == id && refresh.jti == jti
    && Grants(c, user, asked, refresh.location) && refresh.expires == now + c.lifetime
  }

  /** A live record of the token. */
  predicate LiveRecordOf(c: Config, token: Token, r: Record) {
    r.userId == token.user && r.hash == c.hash(token) && r.expires == token.expires && !r.revoked
  }

  /** Issuing gives a pair and adds its live record, or gives none and changes nothing. */
  lemma IssueAdds(c: Config, s: State, id: int, user: User, location: Option<string>, jti: nat, now: int, t: State)
    requires t == Issue(c, s, id, user, location, jti, now)
    ensures t.users == s.users
    ensures
      match IssuePair(c, id, user, location, jti, now)
      case NotIssued(_) => Refuses(c, user, location) && t.table == s.table
      case Pair(access, refresh) =>
        && PairIsFor(c, id, user, location, jti, now, access, refresh)
        && |t.table| == |s.table| + 1 && t.table[..|s.table|] == s.table
        && LiveRecordOf(c, refresh, t.table[|s.table|])
  {
    if location.Some? { LoginIsChecked(c, user, location.value); }
  }

  // ---------- rotating ----------

  /** The token is signed, of the kind, and its time is not over. */
  predicate Holds(c: Config, token: Token, kind: TokenType, now: int) {
    c.signed(token) && token.kind == kind && token.expires > now
  }

  /** The token's first record is neither revoked nor expired, and its user is there and active. */
  ghost predicate Current(c: Config, s: State, token: Token, now: int) {
    && (exists r :: FirstWith(s.table, c.hash(token), r) && !r.revoked && r.expires > now)
    && token.user in s.users && s.users[token.user].isActive
  }

  lemma PresentableIs(c: Config, s: State, token: Token, now: int)
    ensures Presentable(c, s, token, now) <==> Holds(c, token, RefreshToken, now) && Current(c, s, token, now)
  {
    ByHashIsFirst(s.table, c.hash(token));
    var stored := ByHash(s.table, c.hash(token));
    if r :| FirstWith(s.table, c.hash(token), r) {
      assert r in s.table;
      FirstIsOne(s.table, c.hash(token), r, stored.value);
    }
  }

  /**
   A current token whose location its user may still use is rotated: every record with its hash is revoked,
   and one live record of the new token follows. Any other token changes nothing.
   */
  lemma RotationExchanges(c: Config, s: State, token: Token, jti: nat, now: int, t: State)
    requires t == Rotate(c, s, token, jti, now)
    ensures t.users == s.users
    ensures
      var rotation := RotationOf(c, s, token, jti, now);
      if !Holds(c, token, RefreshToken, now) || !Current(c, s, token, now) then
        rotation == InvalidRefreshToken && t == s
      else if Refuses(c, s.users[token.user], token.location) then
        && t == s
        && rotation == if c.strip(token.location.value) !in c.canonical then UnknownSlug else InvalidRefreshToken
      else
        && rotation.Rotated?
        && PairIsFor(c, token.user, s.users[token.user], token.location, jti, now, rotation.access, rotation.refresh)
        && exists r :: LiveRecordOf(c, rotation.refresh, r) && HashRevoked(s.table, t.table, c.hash(token), [r])
  {
    PresentableIs(c, s, token, now);
    if Presentable(c, s, token, now) {
      var user := s.users[token.user];
      if token.location.Some? { LoginIsChecked(c, user, token.location.value); }
      if Rotatable(c, s, token, now) {
        var revoked := Revoke(c, s, token);
        IssueAdds(c, revoked, token.user, user, token.location, jti, now, t);
        var r := t.table[|s.table|];
        assert t.table == revoked.table + [r];
        assert HashRevoked(s.table, t.table, c.hash(token), [r]);
      }
    }
  }

  /** Logging out with a token that decodes revokes every record with its hash; any other token changes nothing. */
  lemma LogoutRevokes(c: Config, s: State, token: Token, now: int, t: State)
    requires t == Logout(c, s, token, now)
    ensures t.users == s.users
    ensures if Holds(c, token, RefreshToken, now) then HashRevoked(s.table, t.table, c.hash(token), [])
            else t.table == s.table
  {
  }

  // ---------- the reset ----------

  /** Only the user's password and reset hash differ. */
  predicate UserBecomes(s: State, t: State, id: int, password: string, resetHash: Option<int>) {
    && id in s.users && t.users.Keys == s.users.Keys
    && (forall other :: other in s.users && other != id ==> t.users[other] == s.users[other])
    && t.users[id].isActive == s.users[id].isActive && t.users[id].isAdmin == s.users[id].isAdmin
    && t.users[id].locations == s.users[id].locations
    && t.users[id].password == password && t.users[id].resetHash == resetHash
  }

  /**
   The reset with the stored token stores the new password, uses the token up and revokes every record of
   the user and no other; with any other token nothing changes.
   */
  lemma ResetStores(c: Config, s: State, token: Token, password: string, now: int, t: State)
    requires t == Reset(c, s, token, password, now)
    ensures Resettable(c, s, token, now) <==>
              && Holds(c, token, ResetToken, now)
              && token.user in s.users && s.users[token.user].resetHash == Some(c.hash(token))
    ensures if Resettable(c, s, token, now) then
              UserBecomes(s, t, token.user, password, None) && UserRevoked(s.table, t.table, token.user)
            else t == s
  {
  }

  /** A request stores the hash of the new reset token with its user, and touches nothing else. */
  lemma RequestStores(c: Config, s: State, token: Token, t: State)
    requires t == RequestReset(c, s, token)
    ensures t.table == s.table
    ensures if token.user in s.users then
              UserBecomes(s, t, token.user, s.users[token.user].password, Some(c.hash(token)))
            else t == s
  {
  }
}
