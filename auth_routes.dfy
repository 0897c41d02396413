/** Registration and login (server/src/routes/auth.js). Password hashing and comparison
    (bcrypt) and token signing (JSON Web Tokens) are foreign calls, passed in as
    functions. */
module AuthRoutes {
  import opened Common
  import opened Models
  import opened Middleware
  import Query

  const FieldsRequired := HttpError(400, "name, email, password required")
  const EmailTaken := HttpError(409, "Email already registered")
  const OrgRequired := HttpError(400, "orgId required (no default organization set)")
  const CredentialsRequired := HttpError(400, "email and password required")
  const InvalidCredentials := HttpError(401, "Invalid credentials")

  /** The foreign password and token functions. */
  datatype Crypto = Crypto(
    hash: string -> string,            // bcrypt.hash(password, 10)
    compare: (string, string) -> bool, // bcrypt.compare(password, hash)
    sign: Payload -> string)           // jwt.sign(payload, JWT_SECRET)

  // ---------------------------------------------------------------- default organisation

  predicate IsActive(o: Organization) {
    o.status == Active
  }

  /** The number of active organisations, counted independently of the query. */
  function CountActive(orgs: seq<Organization>): nat
    decreases |orgs|
  {
    if orgs == [] then 0 else (if IsActive(orgs[0]) then 1 else 0) + CountActive(orgs[1..])
  }

  lemma {:induction false} ActiveQueryCounts(orgs: seq<Organization>)
    ensures |Query.Filter(orgs, IsActive)| == CountActive(orgs)
    decreases |orgs|
  {
    if orgs != [] {
      ActiveQueryCounts(orgs[1..]);
    }
  }

  /** Adding an organisation that is not active changes no count, so it leaves the
      default organisation as it was. */
  lemma {:induction false} InactiveLeavesDefault(orgs: seq<Organization>, o: Organization)
    requires !IsActive(o)
    ensures CountActive(orgs + [o]) == CountActive(orgs)
    ensures ResolveDefaultOrgId(orgs + [o]).Some? <==> ResolveDefaultOrgId(orgs).Some?
    decreases |orgs|
  {
    if orgs != [] {
      assert (orgs + [o])[1..] == orgs[1..] + [o];
      InactiveLeavesDefault(orgs[1..], o);
    } else {
      assert [o][1..] == [];
    }
  }

  /** `resolveDefaultOrgId`: the id of the one active organisation, and null when there
      is none or more than one. */
  function ResolveDefaultOrgId(orgs: seq<Organization>): (r: Option<Id>)
    ensures r.Some? <==> CountActive(orgs) == 1
    ensures r.Some? ==> exists o :: o in orgs && IsActive(o) && o.id == r.value
  {
    var active := Query.Filter(orgs, IsActive);
    ActiveQueryCounts(orgs);
    if |active| == 1 then Some(active[0].id) else None
  }

  // ---------------------------------------------------------------- users

  /** `User.findOne({ email })`. */
  function FindByEmail(users: seq<User>, email: string): (r: Option<User>)
    ensures r.Some? ==> r.value in users && r.value.email == email
    ensures r.None? ==> forall u :: u in users ==> u.email != email
  {
    Query.FindOne(users, (u: User) => u.email == email)
  }

  /** The users collection's invariant: ids below the next fresh id and distinct, the
      schema's required fields present, emails lowercase and unique. */
  ghost predicate UsersConsistent(users: seq<User>, nextId: Id) {
    (forall u :: u in users ==> u.id < nextId && u.SchemaValid()) &&
    (forall u, v :: u in users && v in users && (u.id == v.id || u.email == v.email) ==> u == v)
  }

  class UserStore {
    var users: seq<User>
    var nextId: Id

    ghost predicate Valid()
      reads this
    {
      UsersConsistent(users, nextId)
    }

    constructor ()
      ensures Valid() && users == [] && nextId == 0
    {
      users := [];
      nextId := 0;
    }
  }

  // ---------------------------------------------------------------- register

  datatype RegisterRequest = RegisterRequest(name: Option<string>, email: Option<string>,
                                             password: Option<string>, orgId: Option<Id>)

  /** `POST /register`: 400 without a name, an email or a password; 409 when the
      lowercased email is taken; the organisation is the request's, else the default
      one, else 400. The new user is always a student, with the lowercased email and the
      password's hash. The schema refuses (500) an empty hash. */
  function RegisterDecision(users: seq<User>, orgs: seq<Organization>, crypto: Crypto, req: RegisterRequest, id: Id)
    : (r: Result<User>)
    ensures !Truthy(req.name) || !Truthy(req.email) || !Truthy(req.password) ==> r == Err(FieldsRequired)
    ensures (Truthy(req.name) && Truthy(req.email) && Truthy(req.password) &&
             FindByEmail(users, ToLower(req.email.value)).Some?) ==> r == Err(EmailTaken)
    ensures r.Ok? <==>
      Truthy(req.name) && Truthy(req.email) && Truthy(req.password) &&
      FindByEmail(users, ToLower(req.email.value)).None? &&
      (req.orgId.Some? || ResolveDefaultOrgId(orgs).Some?) && crypto.hash(req.password.value) != ""
    ensures r.Ok? ==>
      var u := r.value;
      u.id == id && u.role == Student && Some(u.name) == req.name && u.email == ToLower(req.email.value) &&
      u.passwordHash == crypto.hash(req.password.value) &&
      u.org == (if req.orgId.Some? then req.orgId else ResolveDefaultOrgId(orgs)) &&
      u.SchemaValid() && forall v :: v in users ==> v.email != u.email
  {
    if !Truthy(req.name) || !Truthy(req.email) || !Truthy(req.password) then Err(FieldsRequired)
    else
      var email := ToLower(req.email.value);
      if FindByEmail(users, email).Some? then Err(EmailTaken)
      else
        var passwordHash := crypto.hash(req.password.value);
        var org := if req.orgId.Some? then req.orgId else ResolveDefaultOrgId(orgs);
        if org.None? then Err(OrgRequired)
        else if passwordHash == "" then Err(ServerError)
        else
          ToLowerIsLower(req.email.value);
          Ok(User(id, org, req.name.value, email, passwordHash, Student, None))
  }

  method Register(store: UserStore, orgs: seq<Organization>, crypto: Crypto, req: RegisterRequest)
    returns (r: Result<User>)
    requires store.Valid()
    modifies store
    ensures store.Valid()
    ensures r == RegisterDecision(old(store.users), orgs, crypto, req, old(store.nextId))
    ensures r.Ok? ==> store.users == old(store.users) + [r.value] && store.nextId == old(store.nextId) + 1
    ensures r.Err? ==> store.users == old(store.users) && store.nextId == old(store.nextId)
  {
    r := RegisterDecision(store.users, orgs, crypto, req, store.nextId);
    if r.Ok? {
      store.users := store.users + [r.value];
      store.nextId := store.nextId + 1;
    }
  }

  /** The email is compared case-insensitively: two spellings of one address in
      different letter cases are one account. */
  lemma RegisterIsCaseInsensitive(users: seq<User>, orgs: seq<Organization>, crypto: Crypto,
                                  req: RegisterRequest, email': string, id: Id, id': Id)
    requires RegisterDecision(users, orgs, crypto, req, id).Ok?
    requires ToLower(email') == ToLower(req.email.value)
    ensures RegisterDecision(users + [RegisterDecision(users, orgs, crypto, req, id).value], orgs, crypto,
                             req.(email := Some(email')), id') == Err(EmailTaken)
  {
    var u := RegisterDecision(users, orgs, crypto, req, id).value;
    var users' := users + [u];
    assert u in users';
    assert email' != "" by {
      assert |ToLower(email')| == |ToLower(req.email.value)|;
    }
  }

  // ---------------------------------------------------------------- login

  datatype LoginRequest = LoginRequest(email: Option<string>, password: Option<string>)

  /** What login answers: the token and the claims it carries. */
  datatype Session = Session(token: string, user: Payload)

  /** The claims signed for a user; a user without an organisation gets none. */
  function ClaimsOf(u: User): Payload {
    Payload(u.id, u.name, u.email, u.role, u.org)
  }

  /** `POST /login`: 400 without an email or a password; 401 'Invalid credentials' for an
      unknown email and for a wrong password alike; otherwise a token signed over the
      user's claims. */
  function LoginDecision(users: seq<User>, crypto: Crypto, req: LoginRequest): (r: Result<Session>)
    ensures !Truthy(req.email) || !Truthy(req.password) ==> r == Err(CredentialsRequired)
    ensures r.Ok? <==>
      Truthy(req.email) && Truthy(req.password) && FindByEmail(users, ToLower(req.email.value)).Some? &&
      crypto.compare(req.password.value, FindByEmail(users, ToLower(req.email.value)).value.passwordHash)
    ensures (r.Err? && Truthy(req.email) && Truthy(req.password)) ==> r == Err(InvalidCredentials)
    ensures r.Ok? ==>
      var u := FindByEmail(users, ToLower(req.email.value)).value;
      r.value.user == ClaimsOf(u) && r.value.token == crypto.sign(ClaimsOf(u))
  {
    if !Truthy(req.email) || !Truthy(req.password) then Err(CredentialsRequired)
    else match FindByEmail(users, ToLower(req.email.value))
      case None => Err(InvalidCredentials)
      case Some(u) =>
        if !crypto.compare(req.password.value, u.passwordHash) then Err(InvalidCredentials)
        else Ok(Session(crypto.sign(ClaimsOf(u)), ClaimsOf(u)))
  }

  /** Login does not tell an unknown email from a wrong password. */
  lemma LoginErrorsIndistinguishable(users: seq<User>, crypto: Crypto, unknown: LoginRequest, wrong: LoginRequest)
    requires Truthy(unknown.email) && Truthy(unknown.password) && FindByEmail(users, ToLower(unknown.email.value)).None?
    requires Truthy(wrong.email) && Truthy(wrong.password) && FindByEmail(users, ToLower(wrong.email.value)).Some?
    requires !crypto.compare(wrong.password.value, FindByEmail(users, ToLower(wrong.email.value)).value.passwordHash)
    ensures LoginDecision(users, crypto, unknown) == LoginDecision(users, crypto, wrong)
  {
  }

  /** A user who registers can log in with the same password, in any letter case of the
      email, provided the hash comparison accepts the password against its own hash. */
  lemma RegisterThenLogin(users: seq<User>, orgs: seq<Organization>, crypto: Crypto, req: RegisterRequest,
                          id: Id, email': string)
    requires RegisterDecision(users, orgs, crypto, req, id).Ok?
    requires crypto.compare(req.password.value, crypto.hash(req.password.value))
    requires ToLower(email') == ToLower(req.email.value)
    ensures var u := RegisterDecision(users, orgs, crypto, req, id).value;
            LoginDecision(users + [u], crypto, LoginRequest(Some(email'), req.password)) ==
              Ok(Session(crypto.sign(ClaimsOf(u)), ClaimsOf(u)))
  {
    var u := RegisterDecision(users, orgs, crypto, req, id).value;
    var users' := users + [u];
    assert email' != "" by {
      assert |ToLower(email')| == |ToLower(req.email.value)|;
    }
    var found := FindByEmail(users', u.email);
    assert found == Some(u) by {
      assert u in users';
      if found.Some? && found.value != u {
        assert found.value in users;
      }
    }
  }

  /** The token login hands out authenticates as the user on every later request, with
      the user's role and organisation, when token verification accepts what signing
      produced. */
  lemma LoginThenAuthenticate(users: seq<User>, crypto: Crypto, req: LoginRequest,
                              verify: string -> Option<Payload>)
    requires LoginDecision(users, crypto, req).Ok?
    requires var s := LoginDecision(users, crypto, req).value; s.token != "" && verify(s.token) == Some(s.user)
    ensures var s := LoginDecision(users, crypto, req).value;
            var c := RequireAuth(Some(BearerPrefix + s.token), verify);
            c.Ok? && c.value.id == s.user.id && c.value.role == s.user.role && c.value.orgId == s.user.orgId
  {
    var s := LoginDecision(users, crypto, req).value;
    BearerRoundTrip(s.token, verify, s.user);
  }
}
