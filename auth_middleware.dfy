/**
 * The bearer-token middleware of the back end: it reads the request's
 * authorization header, insists on the `Bearer ` scheme, verifies the
 * token, looks up the user it belongs to and stores that user on the
 * request.
 *
 * The token check and the user lookup are parameters: they are the JWT
 * library and the authentication service, which this model leaves out.
 */
module AuthMiddleware {
  import opened Wrappers
  import opened Text
  import opened Records

  /** An HTTP error raised to the client. */
  datatype HttpError = HttpError(status: nat, detail: string)

  const MissingHeader := HttpError(401, "Missing Authorization header")
  const InvalidHeader := HttpError(401, "Invalid Authorization header")

  /** Request headers in arrival order; names compare case-insensitively. */
  type Headers = seq<(string, string)>

  /** `request.headers.get(name)`: the first header of that name, ignoring case. */
  function HeaderGet(headers: Headers, name: string): (r: Option<string>)
    ensures r.None? <==> forall i :: 0 <= i < |headers| ==> !EqualsInsensitive(headers[i].0, name)
    ensures r.Some? ==> exists i :: 0 <= i < |headers| && EqualsInsensitive(headers[i].0, name) && headers[i].1 == r.value
    decreases |headers|
  {
    if headers == [] then None
    else if EqualsInsensitive(headers[0].0, name) then Some(headers[0].1)
    else HeaderGet(headers[1..], name)
  }

  const Scheme := "Bearer "

  predicate HasScheme(h: string) { |h| >= |Scheme| && h[..|Scheme|] == Scheme }

  /** `token_header.split(" ")[1]`: after `Bearer ` the text up to the next space. */
  function BearerToken(h: string): string
    requires HasScheme(h)
  {
    assert h == "Bearer" + [' '] + h[|Scheme|..];
    SplitNoSpace("Bearer", h[|Scheme|..]);
    Split(h, ' ')[1]
  }

  /** Splitting at a separator that does not occur gives the whole text. */
  lemma {:induction false} SplitWhole(t: string, sep: char)
    requires sep !in t
    ensures Split(t, sep) == [t]
    decreases |t|
  {
    if t != [] {
      SplitWhole(t[1..], sep);
      assert [t[0]] + t[1..] == t;
    }
  }

  /** A word free of the separator, followed by the separator, is the first piece. */
  lemma {:induction false} SplitAfterWord(w: string, rest: string, sep: char)
    requires sep !in w
    ensures Split(w + [sep] + rest, sep) == [w] + Split(rest, sep)
    decreases |w|
  {
    var s := w + [sep] + rest;
    if w == [] {
      assert s[1..] == rest;
    } else {
      assert s[1..] == w[1..] + [sep] + rest;
      SplitAfterWord(w[1..], rest, sep);
      assert [w[0]] + w[1..] == w;
    }
  }

  lemma SplitNoSpace(w: string, rest: string)
    requires w == "Bearer"
    ensures |Split(w + [' '] + rest, ' ')| >= 2
    ensures Split(w + [' '] + rest, ' ')[1] == Split(rest, ' ')[0]
  {
    SplitAfterWord(w, rest, ' ');
  }

  /** The token is the text after `Bearer ` up to its first space; a token without a space is taken whole. */
  lemma BearerTokenIs(t: string)
    ensures HasScheme(Scheme + t)
    ensures BearerToken(Scheme + t) == Split(t, ' ')[0]
    ensures ' ' !in t ==> BearerToken(Scheme + t) == t
  {
    var h := Scheme + t;
    assert h[..|Scheme|] == Scheme && h[|Scheme|..] == t;
    assert "Bearer" + [' '] + t == h;
    SplitNoSpace("Bearer", t);
    if ' ' !in t { SplitWhole(t, ' '); }
  }

  /** `verify_token(token)`: its result (the e-mail) is not used by the middleware. */
  type TokenCheck = string -> Result<string, HttpError>
  /** `AuthService.get_current_user(token)` */
  type UserLookup = string -> Result<User, HttpError>

  /** The middleware's decision when it reads the header called `headerName`. */
  function Authenticate(headers: Headers, headerName: string, verify: TokenCheck, currentUser: UserLookup): (r: Result<User, HttpError>)
    ensures !Truthy(HeaderGet(headers, headerName)) ==> r == Err(MissingHeader)
    ensures Truthy(HeaderGet(headers, headerName)) && !HasScheme(HeaderGet(headers, headerName).value) ==> r == Err(InvalidHeader)
    ensures r.Ok? ==> (HasScheme(HeaderGet(headers, headerName).value)
      && verify(BearerToken(HeaderGet(headers, headerName).value)).Ok?
      && currentUser(BearerToken(HeaderGet(headers, headerName).value)) == r)
  {
    var h := HeaderGet(headers, headerName);
    if !Truthy(h) then Err(MissingHeader)
    else if !HasScheme(h.value) then Err(InvalidHeader)
    else
      var token := BearerToken(h.value);
      match verify(token)
      case Err(e) => Err(e)
      case Ok(_) => currentUser(token)
  }

  /** The header the middleware reads, as written. */
  const WrittenHeader := "Authentication"
  /** The header its error messages, and the bearer scheme, name. */
  const IntendedHeader := "Authorization"

  function AsWrittenAuthenticate(headers: Headers, verify: TokenCheck, currentUser: UserLookup): Result<User, HttpError> {
    Authenticate(headers, WrittenHeader, verify, currentUser)
  }

  function IntendedAuthenticate(headers: Headers, verify: TokenCheck, currentUser: UserLookup): Result<User, HttpError> {
    Authenticate(headers, IntendedHeader, verify, currentUser)
  }

  /**
   * As written, a request that carries a well-formed `Authorization: Bearer`
   * header and nothing else is refused as if it had no header at all.
   */
  lemma AsWrittenIgnoresAuthorization(token: string, verify: TokenCheck, currentUser: UserLookup)
    ensures AsWrittenAuthenticate([(IntendedHeader, Scheme + token)], verify, currentUser) == Err(MissingHeader)
  {
    SoleHeaderOfOtherLength(IntendedHeader, Scheme + token, WrittenHeader, verify, currentUser);
  }

  lemma SoleHeaderOfOtherLength(sent: string, value: string, read: string, verify: TokenCheck, currentUser: UserLookup)
    requires |sent| != |read|
    ensures Authenticate([(sent, value)], read, verify, currentUser) == Err(MissingHeader)
  {
    NoHeaderOfOtherLength([(sent, value)], read);
  }

  /** Names of another length never match, whatever their case. */
  lemma NoHeaderOfOtherLength(headers: Headers, name: string)
    requires forall i :: 0 <= i < |headers| ==> |headers[i].0| != |name|
    ensures HeaderGet(headers, name).None?
  {
    forall i | 0 <= i < |headers| ensures !EqualsInsensitive(headers[i].0, name) {
      assert |Lower(headers[i].0)| != |Lower(name)|;
    }
  }

  /**
   * Reading `Authorization`, a `Bearer` header whose token has no space in
   * it hands exactly that token to the verifier and to the user lookup.
   */
  lemma IntendedAcceptsBearer(headers: Headers, token: string, verify: TokenCheck, currentUser: UserLookup)
    requires HeaderGet(headers, IntendedHeader) == Some(Scheme + token)
    requires ' ' !in token
    ensures IntendedAuthenticate(headers, verify, currentUser) ==
      match verify(token) case Err(e) => Err(e) case Ok(_) => currentUser(token)
  {
    BearerTokenIs(token);
  }

  /** A request passing through the middleware; `user` stands for `request.state.user`. */
  class Request {
    const headers: Headers
    var user: Option<User>

    constructor (headers: Headers)
      ensures this.headers == headers && user == None
    {
      this.headers := headers;
      user := None;
    }
  }

  /** `auth_middleware(request)`, reading the `Authorization` header. */
  method RunAuthMiddleware(request: Request, verify: TokenCheck, currentUser: UserLookup) returns (r: Result<(), HttpError>)
    modifies request
    ensures IntendedAuthenticate(request.headers, verify, currentUser).Ok? ==>
      r == Ok(()) && request.user == Some(IntendedAuthenticate(request.headers, verify, currentUser).value)
    ensures IntendedAuthenticate(request.headers, verify, currentUser).Err? ==>
      r == Err(IntendedAuthenticate(request.headers, verify, currentUser).error) && request.user == old(request.user)
  {
    match IntendedAuthenticate(request.headers, verify, currentUser)
    case Err(e) => r := Err(e);
    case Ok(u) =>
      request.user := Some(u);
      r := Ok(());
  }
}
