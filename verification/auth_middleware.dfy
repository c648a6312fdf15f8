/**
 * The request guards: reading the bearer token from the Authorization
 * header, authenticating it (401 without a token, 403 for one that does not
 * verify), the role check of protected routes, and the optional variant
 * that never rejects. Token verification is a supplied function.
 */
module AuthMiddleware {
  import opened Records
  import opened AuthService

  const TokenRequired := AppError(401, "Access token required")
  const InvalidToken := AppError(403, "Invalid or expired token")
  const AuthenticationRequired := AppError(401, "Authentication required")
  const InsufficientPermissions := AppError(403, "Insufficient permissions")

  /** jwt.verify with the server's secret: the claims of a valid, unexpired token. */
  type Verifier = string -> Option<Claims>

  /** What a guard does with a request: hand it on, or answer with an error. */
  datatype Outcome = Next | Reject(error: AppError)

  /** header.split(' '): the fields between single spaces, empty ones included. */
  function SplitOnSpace(s: string): (fields: seq<string>)
    ensures |fields| >= 1
    ensures forall i :: 0 <= i < |fields| ==> ' ' !in fields[i]
  {
    if s == [] then [""]
    else
      var rest := SplitOnSpace(s[1..]);
      if s[0] == ' ' then [""] + rest else [[s[0]] + rest[0]] + rest[1..]
  }

  /** fields.join(' '): the inverse of SplitOnSpace. */
  function JoinWithSpace(fields: seq<string>): string
    requires |fields| >= 1
  {
    if |fields| == 1 then fields[0] else fields[0] + " " + JoinWithSpace(fields[1..])
  }

  /** Splitting and joining again gives back the header. */
  lemma {:induction false} JoinSplit(s: string)
    ensures JoinWithSpace(SplitOnSpace(s)) == s
  {
    if s != [] {
      JoinSplit(s[1..]);
      var rest := SplitOnSpace(s[1..]);
      if s[0] != ' ' {
        if |rest| == 1 {
          assert s == [s[0]] + s[1..];
        } else {
          assert rest[1..][0] == rest[1];
          assert JoinWithSpace(rest) == rest[0] + " " + JoinWithSpace(rest[1..]);
          assert s == [s[0]] + s[1..];
        }
      } else {
        assert s == " " + s[1..];
      }
    }
  }

  /** Joining fields without spaces and splitting again gives back the fields. */
  lemma {:induction false} SplitJoin(fields: seq<string>)
    requires |fields| >= 1
    requires forall i :: 0 <= i < |fields| ==> ' ' !in fields[i]
    ensures SplitOnSpace(JoinWithSpace(fields)) == fields
  {
    if |fields| == 1 {
      SplitField(fields[0], "", []);
    } else {
      SplitJoin(fields[1..]);
      SplitField(fields[0], JoinWithSpace(fields[1..]), fields[1..]);
      assert fields == [fields[0]] + fields[1..];
    }
  }

  /**
   * Splitting a space-free field followed (when more fields follow) by a
   * space and the rest puts the field in front of the rest's fields.
   */
  lemma {:induction false} SplitField(f: string, tail: string, tailFields: seq<string>)
    requires ' ' !in f
    requires tailFields == [] ==> tail == ""
    requires tailFields != [] ==> SplitOnSpace(tail) == tailFields
    ensures SplitOnSpace(if tailFields == [] then f else f + " " + tail) == [f] + tailFields
  {
    var s := if tailFields == [] then f else f + " " + tail;
    if f == [] {
      if tailFields != [] {
        assert s == " " + tail;
        assert s[1..] == tail;
      }
    } else {
      assert f[0] != ' ' by {
        assert f[0] in f;
      }
      assert ' ' !in f[1..] by {
        forall k | 0 <= k < |f[1..]| ensures f[1..][k] != ' ' {
          assert f[1..][k] == f[k + 1];
        }
      }
      SplitField(f[1..], tail, tailFields);
      assert s[1..] == (if tailFields == [] then f[1..] else f[1..] + " " + tail);
      assert [f[0]] + f[1..] == f;
    }
  }

  /**
   * authHeader && authHeader.split(' ')[1]: the second field of a present,
   * non-empty header, when it exists and is not empty.
   */
  function BearerToken(header: Option<string>): (token: Option<string>)
    ensures token.Some? ==> token.value != "" && ' ' !in token.value
    ensures token.Some? ==> header.Some? && |SplitOnSpace(header.value)| >= 2 && SplitOnSpace(header.value)[1] == token.value
    ensures header.Some? && |SplitOnSpace(header.value)| >= 2 && SplitOnSpace(header.value)[1] != "" ==> token.Some?
  {
    if !TruthyText(header) then None
    else
      var fields := SplitOnSpace(header.value);
      if |fields| < 2 || fields[1] == "" then None else Some(fields[1])
  }

  /** "Bearer <token>" yields the token, whatever the first word is. */
  lemma BearerTokenOfScheme(scheme: string, token: string)
    requires ' ' !in scheme && ' ' !in token && token != ""
    ensures BearerToken(Some(scheme + " " + token)) == Some(token)
  {
    SplitJoin([scheme, token]);
    assert JoinWithSpace([scheme, token]) == scheme + " " + JoinWithSpace([token]);
  }

  /** A header without a space carries no token. */
  lemma NoSpaceNoToken(header: string)
    requires ' ' !in header
    ensures BearerToken(Some(header)) == None
  {
    SplitJoin([header]);
  }

  /** The request as the guards see it: its Authorization header and the user they attach. */
  class Request {
    const authorization: Option<string>
    var user: Option<Claims>

    constructor (authorization: Option<string>)
      ensures this.authorization == authorization && user == None
    {
      this.authorization := authorization;
      user := None;
    }
  }

  /**
   * authenticateToken: 401 without a token, 403 when it does not verify;
   * otherwise the request's user becomes the token's claims and the
   * request goes on. A rejected request keeps its user.
   */
  method AuthenticateToken(req: Request, verify: Verifier) returns (o: Outcome)
    modifies req`user
    ensures BearerToken(req.authorization).None? ==> o == Reject(TokenRequired) && req.user == old(req.user)
    ensures BearerToken(req.authorization).Some? ==>
      var claims := verify(BearerToken(req.authorization).value);
      if claims.None? then o == Reject(InvalidToken) && req.user == old(req.user)
      else o == Next && req.user == claims
  {
    var token := BearerToken(req.authorization);
    if token.None? {
      return Reject(TokenRequired);
    }
    var claims := verify(token.value);
    if claims.None? {
      return Reject(InvalidToken);
    }
    req.user := claims;
    o := Next;
  }

  /** authorizeRole(...roles): 401 without an authenticated user, 403 when its role is not listed. */
  function AuthorizeRole(roles: seq<Role>, user: Option<Claims>): (o: Outcome)
    ensures o == Next <==> user.Some? && user.value.role in roles
    ensures user.None? ==> o == Reject(AuthenticationRequired)
    ensures user.Some? && user.value.role !in roles ==> o == Reject(InsufficientPermissions)
  {
    if user.None? then Reject(AuthenticationRequired)
    else if user.value.role !in roles then Reject(InsufficientPermissions)
    else Next
  }

  /** optionalAuth: never rejects; attaches the claims of a present token that verifies, and nothing otherwise. */
  method OptionalAuth(req: Request, verify: Verifier) returns (o: Outcome)
    modifies req`user
    ensures o == Next
    ensures var token := BearerToken(req.authorization);
      req.user == (if token.Some? && verify(token.value).Some? then verify(token.value) else old(req.user))
  {
    var token := BearerToken(req.authorization);
    if token.Some? {
      var claims := verify(token.value);
      if claims.Some? {
        req.user := claims;
      }
    }
    o := Next;
  }
}
