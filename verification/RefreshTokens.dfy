/** Refresh tokens: the token table, issuing, rotating, revoking and the password reset. */
module RefreshTokens {
  import opened Folds
  import opened Options

  datatype TokenType = RefreshToken | ResetToken

  /** A signed token is its payload; `jti` is the random part. */
  datatype Token = Token(kind: TokenType, user: int, jti: nat, location: Option<string>, expires: int)

  /** The claims of an access token that the properties speak about. */
  datatype AccessToken = AccessToken(user: int, isAdmin: bool, location: Option<string>)

  datatype User = User(isActive: bool, isAdmin: bool, locations: seq<string>, password: string, resetHash: Option<int>)

  datatype Record = Record(userId: int, hash: int, expires: int, revoked: bool)

  datatype State = State(users: map<int, User>, table: seq<Record>)

  /** Signature check, hash, location catalog and lifetimes, as parameters. */
  datatype Config = Config(
    signed: Token -> bool,
    hash: Token -> int,
    canonical: set<string>,
    strip: string -> string,
    lifetime: int)

  // ---------- the token table ----------

  /** The first record with the hash. */
  function ByHash(table: seq<Record>, hash: int): Option<Record> {
    if table == [] then None
    else if table[0].hash == hash then Some(table[0])
    else ByHash(table[1..], hash)
  }

  function RevokeIf(p: Record -> bool, table: seq<Record>): (r: seq<Record>)
    ensures |r| == |table|
    ensures forall i :: 0 <= i < |table| ==> r[i] == if p(table[i]) then table[i].(revoked := true) else table[i]
  {
    if table == [] then []
    else RevokeIf(p, table[..|table| - 1])
         + [if p(table[|table| - 1]) then table[|table| - 1].(revoked := true) else table[|table| - 1]]
  }

  function HasHash(hash: int): Record -> bool { (r: Record) => r.hash == hash }

  function OfUser(user: int): Record -> bool { (r: Record) => r.userId == user }

  // ---------- login location ----------

  datatype LocationError = InvalidSlug | NoLocationAssigned | NotAuthorized

  datatype Checked = Accepted(slug: string) | Denied(error: LocationError)

  function ValidateLogin(c: Config, user: User, slug: string): Checked {
    var normalized := c.strip(slug);
    if normalized !in c.canonical then Denied(InvalidSlug)
    else if user.isAdmin then Accepted(normalized)
    else if user.locations == [] then Denied(NoLocationAssigned)
    else if normalized !in user.locations then Denied(NotAuthorized)
    else Accepted(normalized)
  }

  // ---------- issuing ----------

  datatype Issued = Pair(access: AccessToken, refresh: Token) | NotIssued(error: LocationError)

  function PairFor(c: Config, id: int, user: User, slug: Option<string>, jti: nat, now: int): Issued {
    Pair(AccessToken(id, user.isAdmin, slug), Token(RefreshToken, id, jti, slug, now + c.lifetime))
  }

  function IssuePair(c: Config, id: int, user: User, location: Option<string>, jti: nat, now: int): Issued {
    if location.None? then PairFor(c, id, user, None, jti, now)
    else
      match ValidateLogin(c, user, location.value)
      case Denied(e) => NotIssued(e)
      case Accepted(slug) => PairFor(c, id, user, Some(slug), jti, now)
  }

  function AddRecord(c: Config, s: State, token: Token): State {
    s.(table := s.table + [Record(token.user, c.hash(token), token.expires, false)])
  }

  function Issue(c: Config, s: State, id: int, user: User, location: Option<string>, jti: nat, now: int): State {
    var issued := IssuePair(c, id, user, location, jti, now);
    if issued.Pair? then AddRecord(c, s, issued.refresh) else s
  }

  // ---------- rotating ----------

  /** Signature and expiry of the token itself, and its type. */
  predicate Decodes(c: Config, token: Token, kind: TokenType, now: int) {
    c.signed(token) && now < token.expires && token.kind == kind
  }

  /** The checks on the token, its record and its user. */
  predicate Presentable(c: Config, s: State, token: Token, now: int) {
    && Decodes(c, token, RefreshToken, now)
    && ByHash(s.table, c.hash(token)).Some?
    && !ByHash(s.table, c.hash(token)).value.revoked
    && now < ByHash(s.table, c.hash(token)).value.expires
    && token.user in s.users && s.users[token.user].isActive
  }

  /** All checks that precede the revocation: the login location must still be the user's. */
  predicate Rotatable(c: Config, s: State, token: Token, now: int) {
    && Presentable(c, s, token, now)
    && (token.location.Some? ==> ValidateLogin(c, s.users[token.user], token.location.value).Accepted?)
  }

  /** An unknown slug is the one failure the endpoint does not turn into an invalid token. */
  datatype Rotation = Rotated(access: AccessToken, refresh: Token) | InvalidRefreshToken | UnknownSlug

  function Revoke(c: Config, s: State, token: Token): State {
    s.(table := RevokeIf(HasHash(c.hash(token)), s.table))
  }

  function Rotate(c: Config, s: State, token: Token, jti: nat, now: int): State {
    if !Rotatable(c, s, token, now) then s
    else Issue(c, Revoke(c, s, token), token.user, s.users[token.user], token.location, jti, now)
  }

  function RotationOf(c: Config, s: State, token: Token, jti: nat, now: int): Rotation {
    if !Presentable(c, s, token, now) then InvalidRefreshToken
    else
      match IssuePair(c, token.user, s.users[token.user], token.location, jti, now)
      case Pair(access, refresh) => Rotated(access, refresh)
      case NotIssued(e) => if e == InvalidSlug then UnknownSlug else InvalidRefreshToken
  }

  /** Logout: revoke what decodes, ignore the rest. */
  function Logout(c: Config, s: State, token: Token, now: int): State {
    if Decodes(c, token, RefreshToken, now) then Revoke(c, s, token) else s
  }

  // ---------- password reset ----------

  predicate Resettable(c: Config, s: State, token: Token, now: int) {
    Decodes(c, token, ResetToken, now) && token.user in s.users && s.users[token.user].resetHash == Some(c.hash(token))
  }

  function Reset(c: Config, s: State, token: Token, password: string, now: int): State {
    if !Resettable(c, s, token, now) then s
    else
      s.(users := s.users[token.user := s.users[token.user].(password := password, resetHash := None)],
         table := RevokeIf(OfUser(token.user), s.table))
  }

  function RequestReset(c: Config, s: State, token: Token): State {
    if token.user !in s.users then s
    else s.(users := s.users[token.user := s.users[token.user].(resetHash := Some(c.hash(token)))])
  }

  // ---------- the service ----------

  class AuthService {
    const config: Config
    var users: map<int, User>
    var table: seq<Record>

    constructor (config: Config)
      ensures this.config == config && View() == State(map[], [])
    {
      this.config := config;
      users, table := map[], [];
    }

    ghost function View(): State
      reads this
    {
      State(users, table)
    }

    method GetByHash(hash: int) returns (record: Option<Record>)
      ensures record == ByHash(table, hash)
    {
      for i := 0 to |table|
        invariant ByHash(table, hash) == ByHash(table[i..], hash)
      {
        if table[i].hash == hash {
          return Some(table[i]);
        }
      }
      record := None;
    }

    /** Marks every record that satisfies the condition, one after the other. */
    method RevokeWhere(p: Record -> bool) returns (updated: nat)
      modifies this`table
      ensures table == RevokeIf(p, old(table))
      ensures updated == Count(p, old(table))
    {
      updated := 0;
      ghost var before := table;
      ghost var after := RevokeIf(p, before);
      for i := 0 to |table|
        invariant |table| == |before|
        invariant forall j :: 0 <= j < i ==> table[j] == after[j]
        invariant forall j :: i <= j < |before| ==> table[j] == before[j]
        invariant updated == Count(p, before[..i])
      {
        CountSnoc(p, before, i);
        if p(table[i]) {
          table := table[i := table[i].(revoked := true)];
          updated := updated + 1;
        }
      }
      assert before[..|before|] == before;
    }

    method IssueTokenPair(id: int, user: User, location: Option<string>, jti: nat, now: int) returns (issued: Issued)
      modifies this`table
      ensures issued == IssuePair(config, id, user, location, jti, now)
      ensures View() == Issue(config, old(View()), id, user, location, jti, now)
    {
      var slug: Option<string> := None;
      if location.Some? {
        var checked := ValidateLogin(config, user, location.value);
        if checked.Denied? {
          return NotIssued(checked.error);
        }
        slug := Some(checked.slug);
      }
      var refresh := Token(RefreshToken, id, jti, slug, now + config.lifetime);
      table := table + [Record(id, config.hash(refresh), refresh.expires, false)];
      issued := Pair(AccessToken(id, user.isAdmin, slug), refresh);
    }

    method RotateRefreshToken(token: Token, jti: nat, now: int) returns (rotation: Rotation)
      modifies this`table
      ensures rotation == RotationOf(config, old(View()), token, jti, now)
      ensures View() == Rotate(config, old(View()), token, jti, now)
    {
      if !Decodes(config, token, RefreshToken, now) {
        return InvalidRefreshToken;
      }
      var stored := GetByHash(config.hash(token));
      if stored.None? || stored.value.revoked || stored.value.expires <= now {
        return InvalidRefreshToken;
      }
      if token.user !in users || !users[token.user].isActive {
        return InvalidRefreshToken;
      }
      if token.location.Some? {
        var checked := ValidateLogin(config, users[token.user], token.location.value);
        if checked.Denied? {
          return if checked.error == InvalidSlug then UnknownSlug else InvalidRefreshToken;
        }
      }
      var _ := RevokeWhere(HasHash(config.hash(token)));
      var issued := IssueTokenPair(token.user, users[token.user], token.location, jti, now);
      if issued.NotIssued? {
        assert false;
        return InvalidRefreshToken;
      }
      rotation := Rotated(issued.access, issued.refresh);
    }

    method RevokeRefreshToken(token: Token, now: int)
      modifies this`table
      ensures View() == Logout(config, old(View()), token, now)
    {
      if !Decodes(config, token, RefreshToken, now) {
        return;
      }
      var stored := GetByHash(config.hash(token));
      if stored.None? {
        NothingToRevoke(config.hash(token), table);
        return;
      }
      var _ := RevokeWhere(HasHash(config.hash(token)));
    }

    method ResetPassword(token: Token, password: string, now: int) returns (ok: bool)
      modifies this
      ensures ok == Resettable(config, old(View()), token, now)
      ensures View() == Reset(config, old(View()), token, password, now)
    {
      if !Decodes(config, token, ResetToken, now) || token.user !in users {
        return false;
      }
      var user := users[token.user];
      if user.resetHash != Some(config.hash(token)) {
        return false;
      }
      users := users[token.user := user.(password := password, resetHash := None)];
      var _ := RevokeWhere(OfUser(token.user));
      ok := true;
    }
  }

  /** Revoking a hash that no record has changes nothing. */
  lemma {:induction false} NothingToRevoke(hash: int, table: seq<Record>)
    requires ByHash(table, hash).None?
    ensures RevokeIf(HasHash(hash), table) == table
  {
    NoneMeansAbsent(hash, table);
  }

  lemma {:induction false} NoneMeansAbsent(hash: int, table: seq<Record>)
    ensures ByHash(table, hash).None? <==> forall i :: 0 <= i < |table| ==> table[i].hash != hash
  {
    if table != [] {
      NoneMeansAbsent(hash, table[1..]);
      assert forall i :: 0 < i < |table| ==> table[i] == table[1..][i - 1];
      if table[0].hash != hash && ByHash(table, hash).Some? {
        var i :| 0 <= i < |table[1..]| && table[1..][i].hash == hash;
        assert table[i + 1].hash == hash;
      }
    }
  }
}
