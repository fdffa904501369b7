/** The Express server (server/index.js): an in-memory user list grown by `/api/register`,
    looked up by `/api/login`, and the `Authorization: Bearer <token>` check of
    `/api/protected` (section 2.1 of RFC 6750). bcrypt and JSON Web Tokens are passed in
    as functions the model knows nothing about. */
module Server {
  import opened Js

  datatype UserRecord = UserRecord(id: int, name: string, email: string, password: string, role: string)

  /** The claims `/api/login` signs. */
  datatype Claims = Claims(id: int, name: string, role: string)

  /** What `jwt.verify` decodes from a token (its claims plus issue and expiry times). */
  datatype TokenPayload = TokenPayload(id: int, name: string, role: string, iat: int, exp: int)

  datatype Body =
    | ErrorBody(error: string)
    | MessageBody(message: string)
    | LoginBody(token: string, name: string, role: string)
    | GrantedBody(message: string, user: TokenPayload)

  datatype Response = Response(status: int, body: Body)

  /** `expiresIn: "1h"`, in seconds. */
  const TokenLifetime: int := 3600

  const EmailExists: Response := Response(400, ErrorBody("Email already exists"))
  const Registered: Response := Response(200, MessageBody("User registered successfully!"))
  const InvalidCredentials: Response := Response(401, ErrorBody("Invalid credentials"))
  const NoToken: Response := Response(403, ErrorBody("No token provided"))
  const InvalidToken: Response := Response(403, ErrorBody("Invalid token"))

  // ---------------------------------------------------------------------------
  // The user list

  /** `users.find(u => u.email === email)`, as the position of the first match. */
  function FindByEmail(users: seq<UserRecord>, email: string): (r: Option<nat>)
    ensures r.Some? ==> r.value < |users| && users[r.value].email == email &&
                        forall j :: 0 <= j < r.value ==> users[j].email != email
    ensures r.None? ==> forall j :: 0 <= j < |users| ==> users[j].email != email
  {
    FirstIndex(users, (u: UserRecord) => u.email == email)
  }

  /** What the register handler keeps true of `users`: ids count up from 1 and no
      email appears twice. */
  ghost predicate RegistryInvariant(users: seq<UserRecord>) {
    && (forall i :: 0 <= i < |users| ==> users[i].id == i + 1)
    && (forall i, j :: 0 <= i < j < |users| ==> users[i].email != users[j].email)
  }

  /** The list after one registration request. */
  function Register(users: seq<UserRecord>, name: string, email: string, password: string, role: string,
                    hash: string -> string): (r: seq<UserRecord>)
    ensures FindByEmail(users, email).Some? ==> r == users
    ensures FindByEmail(users, email).None? ==>
              |r| == |users| + 1 && r[..|users|] == users &&
              r[|users|] == UserRecord(|users| + 1, name, email, hash(password), role)
    ensures FindByEmail(r, email).Some?
  {
    if FindByEmail(users, email).Some? then users
    else users + [UserRecord(|users| + 1, name, email, hash(password), role)]
  }

  datatype RegisterRequest = RegisterRequest(name: string, email: string, password: string, role: string)

  /** The list after a series of registration requests, in order. */
  function RegisterAll(users: seq<UserRecord>, requests: seq<RegisterRequest>, hash: string -> string): seq<UserRecord>
    decreases |requests|
  {
    if requests == [] then users
    else
      var r := requests[0];
      RegisterAll(Register(users, r.name, r.email, r.password, r.role, hash), requests[1..], hash)
  }

  lemma RegisterKeepsInvariant(users: seq<UserRecord>, name: string, email: string, password: string, role: string,
                               hash: string -> string)
    requires RegistryInvariant(users)
    ensures RegistryInvariant(Register(users, name, email, password, role, hash))
  {
  }

  /** Whatever the requests, ids stay positional and emails stay distinct. */
  lemma {:induction false} RegisterAllKeepsInvariant(users: seq<UserRecord>, requests: seq<RegisterRequest>,
                                                      hash: string -> string)
    requires RegistryInvariant(users)
    ensures RegistryInvariant(RegisterAll(users, requests, hash))
    decreases |requests|
  {
    if requests != [] {
      var r := requests[0];
      var next := Register(users, r.name, r.email, r.password, r.role, hash);
      RegisterKeepsInvariant(users, r.name, r.email, r.password, r.role, hash);
      RegisterAllKeepsInvariant(next, requests[1..], hash);
    }
  }

  /** Registering never removes or changes a user: the old list is a prefix of the new. */
  lemma {:induction false} RegisterAllExtends(users: seq<UserRecord>, requests: seq<RegisterRequest>,
                                               hash: string -> string)
    ensures |users| <= |RegisterAll(users, requests, hash)|
    ensures RegisterAll(users, requests, hash)[..|users|] == users
    decreases |requests|
  {
    if requests != [] {
      var r := requests[0];
      var next := Register(users, r.name, r.email, r.password, r.role, hash);
      assert next[..|users|] == users;
      RegisterAllExtends(next, requests[1..], hash);
      assert RegisterAll(users, requests, hash)[..|next|][..|users|] == users;
    }
  }

  // ---------------------------------------------------------------------------
  // The Bearer header

  /** The text up to (not including) the first space. */
  function UpToSpace(s: string): (r: string)
    ensures |r| <= |s| && r == s[..|r|]
    ensures forall i :: 0 <= i < |r| ==> r[i] != ' '
    ensures |r| < |s| ==> s[|r|] == ' '
  {
    if s == [] || s[0] == ' ' then [] else [s[0]] + UpToSpace(s[1..])
  }

  /** `fields.join(" ")` */
  function JoinFields(fields: seq<string>): string {
    if fields == [] then ""
    else if |fields| == 1 then fields[0]
    else fields[0] + " " + JoinFields(fields[1..])
  }

  /** `s.split(" ")`: the space-separated fields, empty ones included. No field holds a
      space, and joining them with single spaces gives back `s`. */
  function Fields(s: string): (r: seq<string>)
    ensures |r| >= 1 && r[0] == UpToSpace(s)
    ensures forall k, i :: 0 <= k < |r| && 0 <= i < |r[k]| ==> r[k][i] != ' '
    ensures JoinFields(r) == s
    decreases |s|
  {
    var f := UpToSpace(s);
    if |f| == |s| then
      [s]
    else
      var rest := Fields(s[|f| + 1..]);
      var r := [f] + rest;
      assert r[1..] == rest;
      assert s == f + " " + s[|f| + 1..];
      r
  }

  /** Splitting undoes joining: fields without spaces come back unchanged. */
  lemma {:induction false} FieldsOfJoin(fields: seq<string>)
    requires |fields| >= 1
    requires forall k, i :: 0 <= k < |fields| && 0 <= i < |fields[k]| ==> fields[k][i] != ' '
    ensures Fields(JoinFields(fields)) == fields
  {
    if |fields| == 1 {
      UpToSpaceNoSpace(fields[0]);
    } else {
      var s := JoinFields(fields);
      var tail := JoinFields(fields[1..]);
      assert s == fields[0] + " " + tail;
      UpToSpacePrefix(s, |fields[0]|);
      assert s[..|fields[0]|] == fields[0];
      assert s[|fields[0]| + 1..] == tail;
      FieldsOfJoin(fields[1..]);
      assert fields == [fields[0]] + fields[1..];
    }
  }

  const BearerPrefix: string := "Bearer "

  predicate StartsWith(s: string, prefix: string) {
    |prefix| <= |s| && s[..|prefix|] == prefix
  }

  /** `authHeader.split(" ")[1]` for a header that starts with "Bearer ". */
  function BearerToken(header: string): (token: string)
    requires StartsWith(header, BearerPrefix)
    ensures token == UpToSpace(header[|BearerPrefix|..])
  {
    assert header[..6] == "Bearer";
    assert UpToSpace(header) == "Bearer" by {
      UpToSpacePrefix(header, 6);
    }
    Fields(header)[1]
  }

  lemma UpToSpacePrefix(s: string, n: nat)
    requires n < |s| && s[n] == ' ' && forall i :: 0 <= i < n ==> s[i] != ' '
    ensures UpToSpace(s) == s[..n]
  {
    var r := UpToSpace(s);
    assert !(|r| < n) && !(|r| > n);
  }

  /** `/api/protected`: 403 "No token provided" unless the header starts with the
      case-sensitive "Bearer ", 403 "Invalid token" when verification fails, the decoded
      payload otherwise. */
  function Protected(authHeader: Option<string>, verify: string -> Option<TokenPayload>): (r: Response)
    ensures (authHeader.None? || !StartsWith(authHeader.value, BearerPrefix)) ==> r == NoToken
    ensures authHeader.Some? && StartsWith(authHeader.value, BearerPrefix) ==>
              var token := UpToSpace(authHeader.value[|BearerPrefix|..]);
              r == if verify(token).None? then InvalidToken
                   else Response(200, GrantedBody("Access granted", verify(token).value))
  {
    if authHeader.None? || authHeader.value == "" || !StartsWith(authHeader.value, BearerPrefix) then NoToken
    else
      match verify(BearerToken(authHeader.value))
      case None => InvalidToken
      case Some(decoded) => Response(200, GrantedBody("Access granted", decoded))
  }

  /** A well-formed header `Bearer <token>` (the token has no space) is checked against
      exactly that token. */
  lemma BearerRoundTrip(token: string, verify: string -> Option<TokenPayload>)
    requires forall i :: 0 <= i < |token| ==> token[i] != ' '
    ensures Protected(Some(BearerPrefix + token), verify) ==
              if verify(token).None? then InvalidToken else Response(200, GrantedBody("Access granted", verify(token).value))
  {
    var h := BearerPrefix + token;
    assert h[..|BearerPrefix|] == BearerPrefix;
    assert h[|BearerPrefix|..] == token;
    UpToSpaceNoSpace(token);
  }

  lemma {:induction false} UpToSpaceNoSpace(s: string)
    requires forall i :: 0 <= i < |s| ==> s[i] != ' '
    ensures UpToSpace(s) == s
  {
    if s != [] {
      UpToSpaceNoSpace(s[1..]);
    }
  }

  /** Text after the token (separated by a space) is ignored. */
  lemma BearerIgnoresTrailingFields(token: string, rest: string, verify: string -> Option<TokenPayload>)
    requires forall i :: 0 <= i < |token| ==> token[i] != ' '
    ensures Protected(Some(BearerPrefix + token + " " + rest), verify) == Protected(Some(BearerPrefix + token), verify)
  {
    var h := BearerPrefix + token + " " + rest;
    assert h[..|BearerPrefix|] == BearerPrefix;
    var tail := h[|BearerPrefix|..];
    assert tail == token + " " + rest;
    UpToSpacePrefix(tail, |token|);
    assert tail[..|token|] == token;
    BearerRoundTrip(token, verify);
  }

  // ---------------------------------------------------------------------------
  // The server

  class ApiServer {
    var users: seq<UserRecord>

    ghost predicate Valid() reads this {
      RegistryInvariant(users)
    }

    constructor ()
      ensures Valid() && users == []
    {
      users := [];
    }

    /** `POST /api/register`: 400 for a known email, leaving `users` as it was; otherwise
        one record appended with the next id and the hashed password. */
    method RegisterUser(name: string, email: string, password: string, role: string, hash: string -> string)
      returns (res: Response)
      requires Valid()
      modifies this
      ensures Valid()
      ensures users == Register(old(users), name, email, password, role, hash)
      ensures FindByEmail(old(users), email).Some? ==> res == EmailExists && users == old(users)
      ensures FindByEmail(old(users), email).None? ==>
                res == Registered &&
                users == old(users) + [UserRecord(|old(users)| + 1, name, email, hash(password), role)]
    {
      if FindByEmail(users, email).Some? {
        return EmailExists;
      }
      var hashedPassword := hash(password);
      var user := UserRecord(|users| + 1, name, email, hashedPassword, role);
      users := users + [user];
      res := Registered;
    }

    /** `POST /api/login`: the same 401 for an unknown email and a wrong password;
        otherwise a token signed over the first matching user's id, name and role,
        valid for one hour. */
    method Login(email: string, password: string, compare: (string, string) -> bool,
                 sign: (Claims, int) -> string) returns (res: Response)
      ensures FindByEmail(users, email).None? ==> res == InvalidCredentials
      ensures FindByEmail(users, email).Some? ==>
                var u := users[FindByEmail(users, email).value];
                res == if compare(password, u.password)
                       then Response(200, LoginBody(sign(Claims(u.id, u.name, u.role), TokenLifetime), u.name, u.role))
                       else InvalidCredentials
    {
      var found := FindByEmail(users, email);
      if found.None? || !compare(password, users[found.value].password) {
        return InvalidCredentials;
      }
      var user := users[found.value];
      var token := sign(Claims(user.id, user.name, user.role), TokenLifetime);
      res := Response(200, LoginBody(token, user.name, user.role));
    }
  }

  /** Just after a successful registration, login by that email finds the new user. */
  lemma RegisteredUserIsFound(users: seq<UserRecord>, name: string, email: string, password: string, role: string,
                              hash: string -> string)
    requires FindByEmail(users, email).None?
    ensures var after := Register(users, name, email, password, role, hash);
            FindByEmail(after, email) == Some(|users|) &&
            after[|users|] == UserRecord(|users| + 1, name, email, hash(password), role)
  {
    var after := Register(users, name, email, password, role, hash);
    assert after[|users|].email == email;
    assert forall j :: 0 <= j < |users| ==> after[j] == users[j];
  }
}
