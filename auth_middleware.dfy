/**
  The server's authentication middleware: it checks for a bearer
  `Authorization` header, asks the auth service for the token's user, and
  either answers with an error status or records the user on the request
  and passes it on. The auth service is a function parameter.
 */
module AuthMiddleware {
  import opened Wrappers
  import opened Strings

  const BearerPrefix := "Bearer "

  const MissingHeader := "Missing or invalid authorization header"
  const InvalidToken := "Invalid or expired token"
  const AuthError := "Authentication error"

  /** The user record of the auth service; absent fields are `None`. */
  datatype AuthUser = AuthUser(id: string, email: Option<string>, role: Option<string>)

  /** The auth service's answer: an error flag and a possibly missing user, or an exception. */
  datatype Lookup = Answer(failed: bool, user: Option<AuthUser>) | Threw

  /** What the middleware stores as `req.user`. */
  datatype RequestUser = RequestUser(id: string, email: string, role: string)

  datatype Outcome = Rejected(status: nat, error: string) | Passed(user: RequestUser)

  /** The header is present and starts with "Bearer " (case-sensitively). */
  predicate HasBearer(header: Option<string>)
  {
    header.Some? && StartsWith(header.value, BearerPrefix)
  }

  /**
    `authHeader.split(" ")[1]`: the longest space-free run after "Bearer ",
    so anything after a further space is ignored and "Bearer " alone gives
    the empty token.
   */
  function Token(header: string): (token: string)
    requires StartsWith(header, BearerPrefix)
    ensures var rest := header[|BearerPrefix|..];
      && |token| <= |rest| && rest[..|token|] == token && ' ' !in token
      && (|token| == |rest| || rest[|token|] == ' ')
  {
    var rest := header[|BearerPrefix|..];
    var spaced := [' '] + rest;
    assert header == "Bearer" + spaced by {
      assert header == header[..|BearerPrefix|] + rest;
    }
    assert ' ' !in "Bearer";
    SplitPrefix("Bearer", spaced, ' ');
    assert spaced[1..] == rest;
    assert Split(spaced, ' ') == [[]] + Split(rest, ' ');
    assert "Bearer" + Split(spaced, ' ')[0] == "Bearer";
    FirstPiece(rest, ' ');
    Split(header, ' ')[1]
  }

  /** The user record built from the service's user, with the email and role defaults. */
  function ToRequestUser(u: AuthUser): (r: RequestUser)
    ensures r.id == u.id
    ensures r.email == (if u.email.Some? then u.email.value else "")
    ensures r.role == (if u.role.Some? && u.role.value != [] then u.role.value else "student")
  {
    RequestUser(u.id, if u.email.Some? then u.email.value else "", if u.role.Some? && u.role.value != [] then u.role.value else "student")
  }

  /** The middleware's decision, with `getUser` standing for the auth service. */
  function Authenticate(header: Option<string>, getUser: string -> Lookup): (o: Outcome)
    ensures !HasBearer(header) ==> o == Rejected(401, MissingHeader)
    ensures HasBearer(header) ==>
      var answer := getUser(Token(header.value));
      && (answer.Threw? ==> o == Rejected(500, AuthError))
      && (answer.Answer? && (answer.failed || answer.user.None?) ==> o == Rejected(401, InvalidToken))
      && (answer.Answer? && !answer.failed && answer.user.Some? ==> o == Passed(ToRequestUser(answer.user.value)))
    ensures o.Passed? ==> HasBearer(header) && o.user.role != []
  {
    if !HasBearer(header) then Rejected(401, MissingHeader)
    else
      match getUser(Token(header.value))
      case Threw => Rejected(500, AuthError)
      case Answer(failed, user) =>
        if failed || user.None? then Rejected(401, InvalidToken) else Passed(ToRequestUser(user.value))
  }

  /** A token stops at the next space. */
  lemma TokenStopsAtSpace()
    ensures Token("Bearer a b") == "a"
  {
    var t := Token("Bearer a b");
    assert "Bearer a b"[|BearerPrefix|..] == "a b";
    assert t == "a b"[..|t|];
    assert "a b"[1] == ' ';
  }

  /** "Bearer " alone passes the header check with the empty token. */
  lemma EmptyToken()
    ensures HasBearer(Some("Bearer "))
    ensures Token("Bearer ") == ""
  {
    assert "Bearer "[|BearerPrefix|..] == "";
  }

  class Request {
    var user: Option<RequestUser>
  }

  class Response {
    var status: Option<nat>
    var body: Option<string>
  }

  /** Counts how often the next handler was invoked. */
  class Next {
    var calls: nat
  }

  /**
    Runs the middleware on one request: a rejection sets the response status
    and error body and leaves the request and `next` alone; a pass sets
    `req.user`, leaves the response alone and calls `next` exactly once.
   */
  method Authorize(header: Option<string>, getUser: string -> Lookup, req: Request, res: Response, next: Next)
    modifies req, res, next
    ensures Authenticate(header, getUser).Rejected? ==>
      && res.status == Some(Authenticate(header, getUser).status)
      && res.body == Some(Authenticate(header, getUser).error)
      && req.user == old(req.user) && next.calls == old(next.calls)
    ensures Authenticate(header, getUser).Passed? ==>
      && req.user == Some(Authenticate(header, getUser).user)
      && next.calls == old(next.calls) + 1
      && res.status == old(res.status) && res.body == old(res.body)
  {
    var outcome := Authenticate(header, getUser);
    match outcome {
      case Rejected(status, error) =>
        res.status := Some(status);
        res.body := Some(error);
      case Passed(user) =>
        req.user := Some(user);
        next.calls := next.calls + 1;
    }
  }
}
