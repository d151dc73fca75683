/** The authentication endpoints and the token gate that guards the
    appointment endpoints. Token signing and checking, password hashing and
    JSON decoding are supplied from outside as functions. */
module AuthRoutes {
  import opened Wrappers
  import Text

  const InvalidHeaderMessage := "Invalid Authorization token in header."
  const InvalidJsonMessage := "Invalid JSON data supplied."
  const MissingCredentialsMessage := "email and/or password not passed with request."
  const CredentialTypeMessage := "Incorrect type for email and/or password."
  const UserExistsMessage := "User already exists."
  const RegisteredPrefix := "Successfully registered new user: "
  const BadLoginMessage := "Invalid email or password. Please try again."
  const TokenMessage := "Token generated with 5 minute expiration."
  const TokenErrorPrefix := "Error retrieving token: "

  /** What the token decoder yields: the token's subject, or a string saying
      why the token was refused (expired, malformed). */
  datatype Decoded = Subject(subject: seq<int>) | Refused(reason: string)

  /** What the gate decides: run the wrapped handler, or answer in its place. */
  datatype GateOutcome = Proceed | Deny(response: Response)

  /** `auth_token_required`: no header is refused with 401; a header without a
      space fails when its second part is taken (an exception the gate does
      not catch); an empty token runs the handler undecoded; otherwise the
      decoder's refusal string becomes the 401 message. */
  function Gate(header: Option<string>, decode: string -> Decoded): (g: GateOutcome)
    ensures header == None ==> g == Deny(Response(InvalidHeaderMessage, 401))
    ensures header.Some? && |Text.Split(header.value, ' ')| < 2 ==> g == Deny(Unhandled)
    ensures header.Some? && |Text.Split(header.value, ' ')| >= 2 && decode(Text.Split(header.value, ' ')[1]).Refused? &&
            Text.Split(header.value, ' ')[1] != "" ==>
              g == Deny(Response(decode(Text.Split(header.value, ' ')[1]).reason, 401))
    ensures g == Proceed <==>
              header.Some? && |Text.Split(header.value, ' ')| >= 2 &&
              (Text.Split(header.value, ' ')[1] == "" || decode(Text.Split(header.value, ' ')[1]).Subject?)
    ensures g.Deny? && g.response.Response? ==> g.response.status == 401
  {
    match header
    case None => Deny(Response(InvalidHeaderMessage, 401))
    case Some(h) =>
      var parts := Text.Split(h, ' ');
      if |parts| < 2 then Deny(Unhandled)
      else if parts[1] == "" then Proceed
      else match decode(parts[1])
        case Subject(_) => Proceed
        case Refused(reason) => Deny(Response(reason, 401))
  }

  /** A well-formed bearer header is decided by the decoder alone. */
  lemma {:induction false} BearerHeader(token: string, decode: string -> Decoded)
    requires token != [] && ' ' !in token
    ensures Gate(Some("Bearer " + token), decode) ==
              match decode(token)
              case Subject(_) => Proceed
              case Refused(reason) => Deny(Response(reason, 401))
  {
    Text.SplitAround("Bearer", ' ', token);
    Text.SplitWithoutSeparator("Bearer", ' ');
    Text.SplitWithoutSeparator(token, ' ');
    assert "Bearer " + token == "Bearer" + [' '] + token;
  }

  /** An empty token after the scheme is never decoded: any two decoders give
      the same decision, and it lets the handler run. */
  lemma EmptyTokenNotDecoded(scheme: string, decode: string -> Decoded, other: string -> Decoded)
    requires ' ' !in scheme
    ensures Gate(Some(scheme + " "), decode) == Gate(Some(scheme + " "), other) == Proceed
  {
    Text.SplitAround(scheme, ' ', "");
    Text.SplitWithoutSeparator(scheme, ' ');
    assert scheme + " " == scheme + [' '] + "";
  }

  /** A JSON value as the request body decodes to. Object members keep their
      order; keys are distinct. */
  datatype Json =
    | JNull
    | JBool(b: bool)
    | JNumber(n: int)
    | JFloat(x: real)
    | JString(s: string)
    | JArray(items: seq<Json>)
    | JObject(members: seq<(string, Json)>)

  /** `get_args`: a string body is decoded once more as JSON (failure is a
      400); any other body is used as it is. */
  function GetArgs(data: Json, loads: string -> Option<Json>): (r: Result<Json, Response>)
    ensures r.Failure? <==> data.JString? && loads(data.s).None?
    ensures r.Failure? ==> r.error == Response(InvalidJsonMessage, 400)
    ensures r.Success? ==> r.value == if data.JString? then loads(data.s).value else data
  {
    if data.JString? then
      match loads(data.s)
      case None => Failure(Response(InvalidJsonMessage, 400))
      case Some(v) => Success(v)
    else Success(data)
  }

  /** `list(args.keys()) == ['email', 'password']`, for an object. */
  predicate CredentialKeys(members: seq<(string, Json)>)
  {
    |members| == 2 && members[0].0 == "email" && members[1].0 == "password"
  }

  /** What `html.escape` raises on a value that is not a string:
      AttributeError: '<type>' object has no attribute 'replace'. */
  function NotAStringError(v: Json): string
  {
    var typeName := match v
      case JNull => "NoneType"
      case JBool(_) => "bool"
      case JNumber(_) => "int"
      case JFloat(_) => "float"
      case JString(_) => "str"
      case JArray(_) => "list"
      case JObject(_) => "dict";
    "'" + typeName + "' object has no attribute 'replace'"
  }

  /** The argument checks shared by `register` and `login`: decode, reject a
      non-object (its `.keys()` raises), and require exactly the keys `email`
      then `password`. */
  function CredentialArgs(data: Json, loads: string -> Option<Json>): (r: Result<(Json, Json), Response>)
    ensures r.Success? <==>
              GetArgs(data, loads).Success? && GetArgs(data, loads).value.JObject? &&
              CredentialKeys(GetArgs(data, loads).value.members)
    ensures GetArgs(data, loads).Failure? ==> r == Failure(GetArgs(data, loads).error)
    ensures r.Success? ==>
              r.value == (GetArgs(data, loads).value.members[0].1, GetArgs(data, loads).value.members[1].1)
    ensures r.Failure? && GetArgs(data, loads).Success? ==>
              r.error == if GetArgs(data, loads).value.JObject? then Response(MissingCredentialsMessage, 400)
                         else Unhandled
  {
    match GetArgs(data, loads)
    case Failure(resp) => Failure(resp)
    case Success(args) =>
      if !args.JObject? then Failure(Unhandled)
      else if !CredentialKeys(args.members) then Failure(Response(MissingCredentialsMessage, 400))
      else Success((args.members[0].1, args.members[1].1))
  }

  /** A stored user: the email is unique, the password is kept only hashed. */
  datatype User = User(email: string, passwordHash: string)

  /** `User.query.filter_by(email=...).first()`. */
  function FindUser(users: seq<User>, email: string): (r: Option<User>)
    ensures r.Some? ==> r.value in users && r.value.email == email
    ensures r.None? <==> forall u :: u in users ==> u.email != email
    decreases |users|
  {
    if users == [] then None
    else if users[0].email == email then Some(users[0])
    else FindUser(users[1..], email)
  }

  /** What `login` answers, with the token when one is issued. */
  datatype LoginReply = LoginReply(response: Response, token: Option<string>)

  /** The users table. */
  class UserStore {
    var users: seq<User>

    ghost predicate Valid()
      reads this
    {
      forall i, j :: 0 <= i < j < |users| ==> users[i].email != users[j].email
    }

    constructor ()
      ensures Valid() && users == []
    {
      users := [];
    }

    /** `register`: after the shared argument checks, both values must be
        strings; an email already stored is refused (the unique constraint),
        otherwise exactly one user is added with the hashed password. */
    method Register(data: Json, loads: string -> Option<Json>, hash: string -> string) returns (resp: Response)
      requires Valid()
      modifies this
      ensures Valid()
      ensures CredentialArgs(data, loads).Failure? ==>
                resp == CredentialArgs(data, loads).error && users == old(users)
      ensures CredentialArgs(data, loads).Success? ==>
                var (email, password) := CredentialArgs(data, loads).value;
                if !email.JString? || !password.JString? then
                  resp == Response(CredentialTypeMessage, 400) && users == old(users)
                else if FindUser(old(users), email.s).Some? then
                  resp == Response(UserExistsMessage, 400) && users == old(users)
                else
                  resp == Response(RegisteredPrefix + email.s, 201) &&
                  users == old(users) + [User(email.s, hash(password.s))]
    {
      var args := CredentialArgs(data, loads);
      if args.Failure? {
        return args.error;
      }
      var (email, password) := args.value;
      if !email.JString? || !password.JString? {
        return Response(CredentialTypeMessage, 400);
      }
      if FindUser(users, email.s).Some? {
        return Response(UserExistsMessage, 400);
      }
      users := users + [User(email.s, hash(password.s))];
      resp := Response(RegisteredPrefix + email.s, 201);
    }

    /** `login`: after the shared argument checks, an unknown email or a failed
        password check is a 401; a known user with the right password gets a
        token. Escaping a value that is not a string raises inside the `try`,
        which answers 500; the password is only escaped for a known user. */
    function Login(data: Json, loads: string -> Option<Json>,
                   checkPassword: (string, string) -> bool, issue: string -> string): (r: LoginReply)
      reads this
      ensures r.response.Response? && r.response.status == 200 <==>
                && CredentialArgs(data, loads).Success?
                && var (email, password) := CredentialArgs(data, loads).value;
                && email.JString? && FindUser(users, email.s).Some? && password.JString?
                && checkPassword(FindUser(users, email.s).value.passwordHash, password.s)
      ensures CredentialArgs(data, loads).Failure? ==> r == LoginReply(CredentialArgs(data, loads).error, None)
      ensures CredentialArgs(data, loads).Success? && CredentialArgs(data, loads).value.0.JString? &&
              FindUser(users, CredentialArgs(data, loads).value.0.s).None? ==>
                r == LoginReply(Response(BadLoginMessage, 401), None)
      ensures r.response.Response? && r.response.status == 500 <==>
                && CredentialArgs(data, loads).Success?
                && var (email, password) := CredentialArgs(data, loads).value;
                && (!email.JString? || (FindUser(users, email.s).Some? && !password.JString?))
      ensures r.token.Some? <==> r.response.Response? && r.response.status == 200
      ensures r.token.Some? ==> r.token.value == issue(CredentialArgs(data, loads).value.0.s)
      ensures CredentialArgs(data, loads).Success? ==>
                var (email, password) := CredentialArgs(data, loads).value;
                if !email.JString? then
                  r == LoginReply(Response(TokenErrorPrefix + NotAStringError(email), 500), None)
                else if FindUser(users, email.s).None? then
                  r == LoginReply(Response(BadLoginMessage, 401), None)
                else if !password.JString? then
                  r == LoginReply(Response(TokenErrorPrefix + NotAStringError(password), 500), None)
                else if !checkPassword(FindUser(users, email.s).value.passwordHash, password.s) then
                  r == LoginReply(Response(BadLoginMessage, 401), None)
                else
                  r == LoginReply(Response(TokenMessage, 200), Some(issue(email.s)))
    {
      match CredentialArgs(data, loads)
      case Failure(resp) => LoginReply(resp, None)
      case Success((email, password)) =>
        if !email.JString? then
          LoginReply(Response(TokenErrorPrefix + NotAStringError(email), 500), None)
        else match FindUser(users, email.s)
          case None => LoginReply(Response(BadLoginMessage, 401), None)
          case Some(user) =>
            if !password.JString? then
              LoginReply(Response(TokenErrorPrefix + NotAStringError(password), 500), None)
            else if !checkPassword(user.passwordHash, password.s) then
              LoginReply(Response(BadLoginMessage, 401), None)
            else LoginReply(Response(TokenMessage, 200), Some(issue(email.s)))
    }
  }

  /** The credentials body `{"email": e, "password": p}`. */
  function CredentialsBody(email: string, password: string): Json
  {
    JObject([("email", JString(email)), ("password", JString(password))])
  }

  /** Registering the same credentials twice on an empty users table: created
      first, refused second, with exactly one user stored for the email. */
  method RegisterTwice(email: string, password: string, loads: string -> Option<Json>, hash: string -> string)
    returns (first: Response, second: Response, users: seq<User>)
    ensures first == Response(RegisteredPrefix + email, 201)
    ensures second == Response(UserExistsMessage, 400)
    ensures users == [User(email, hash(password))]
  {
    var store := new UserStore();
    var body := CredentialsBody(email, password);
    first := store.Register(body, loads, hash);
    second := store.Register(body, loads, hash);
    users := store.users;
  }

  /** Looking an email up after appending a user with it finds that user
      when no earlier user had it. */
  lemma {:induction false} FindUserAppended(users: seq<User>, user: User)
    requires FindUser(users, user.email).None?
    ensures FindUser(users + [user], user.email) == Some(user)
    decreases |users|
  {
    if users != [] {
      assert (users + [user])[1..] == users[1..] + [user];
      assert users[0] in users;
      FindUserAppended(users[1..], user);
    }
  }

  /** Registering new credentials and then logging in with them yields a
      token for the email, provided the password checker accepts what the
      hasher produced for the same password. */
  method RegisterThenLogin(store: UserStore, email: string, password: string, loads: string -> Option<Json>,
                           hash: string -> string, checkPassword: (string, string) -> bool, issue: string -> string)
    returns (registered: Response, reply: LoginReply)
    requires store.Valid() && FindUser(store.users, email).None?
    requires forall p :: checkPassword(hash(p), p)
    modifies store
    ensures registered == Response(RegisteredPrefix + email, 201)
    ensures reply == LoginReply(Response(TokenMessage, 200), Some(issue(email)))
  {
    var body := CredentialsBody(email, password);
    registered := store.Register(body, loads, hash);
    FindUserAppended(old(store.users), User(email, hash(password)));
    reply := store.Login(body, loads, checkPassword, issue);
  }

  /** An email nobody registered is refused with 401, whatever the password. */
  lemma UnknownUserRefused(store: UserStore, email: string, password: Json, loads: string -> Option<Json>,
                           checkPassword: (string, string) -> bool, issue: string -> string)
    requires FindUser(store.users, email).None?
    ensures store.Login(JObject([("email", JString(email)), ("password", password)]), loads, checkPassword, issue) ==
              LoginReply(Response(BadLoginMessage, 401), None)
  {
  }
}
