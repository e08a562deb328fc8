/**
  The account handlers. Signup looks the e-mail up and inserts a new,
  pending user with a hashed password only when nobody holds it; signin
  issues a token only when the lookup finds a user whose stored hash
  matches the password. Hashing, password comparison, e-mail and date
  recognition, signing and calendar arithmetic are library calls and
  arrive as parameters.
 */
module UserService {
  import opened Wrappers
  import opened Strings
  import opened Js
  import opened Models
  import opened Database
  import opened Http
  import opened Validators
  import opened Security

  /** A row of the user lookup: column name to value. */
  type UserRow = JsObject

  /** The columns the user lookup selects. */
  const LookupColumns: set<string> :=
    {"id", "nome", "sobrenome", "data_nascimento", "cep", "cidade", "uf", "email", "senha", "tipo_usuario",
     "foto", "foto_documento"}

  /** The value of the user type for an ordinary user. */
  const OrdinaryUser := 4

  const EmailMessage := "Email inválido"
  const PasswordMessage := "Senha deve ter no mínimo 3 caracteres"

  /** The rules both handlers share: a well-formed e-mail and a password of at least three characters. */
  function CommonErrors(email: JsValue, password: JsValue, isEmail: string -> bool): (errors: seq<ValidationError>)
    ensures errors == [] <==> isEmail(RuleText(email)) && MinLength(password, 3)
    ensures Names(errors, "email") <==> !isEmail(RuleText(email))
    ensures Names(errors, "password") <==> !MinLength(password, 3)
    ensures forall e :: e in errors ==> e.param in {"email", "password"}
  {
    var e := Rule(isEmail(RuleText(email)), "email", EmailMessage);
    var p := Rule(MinLength(password, 3), "password", PasswordMessage);
    assert e != [] ==> (e + p)[0] == e[0];
    assert p != [] ==> (e + p)[|e|] == p[0];
    e + p
  }

  /** The rules of signin: only the shared ones, so nothing but the e-mail and the password is checked. */
  function SigninErrors(email: JsValue, password: JsValue, isEmail: string -> bool): (errors: seq<ValidationError>)
    ensures errors == [] <==> isEmail(RuleText(email)) && MinLength(password, 3)
    ensures Names(errors, "email") <==> !isEmail(RuleText(email))
    ensures Names(errors, "password") <==> !MinLength(password, 3)
    ensures forall k :: 0 <= k < |errors| ==> errors[k].param in {"email", "password"}
  {
    CommonErrors(email, password, isEmail)
  }

  /** The signup form's fields. */
  datatype SignupForm = SignupForm(
    name: JsValue, lastName: JsValue, dateOfBirth: JsValue, zipCode: JsValue,
    city: JsValue, state: JsValue, email: JsValue, password: JsValue)

  /** The zip code rule, which an absent zip code skips. */
  predicate ZipCodeOk(zipCode: JsValue) {
    zipCode.Undefined? || MinLength(zipCode, 8)
  }

  /**
    The rules of signup, in order: the shared ones, then name and last name
    of at least three characters, a date of birth, a zip code of at least
    eight when given, a city of at least three and a state of at least two.
   */
  function SignupErrors(f: SignupForm, isEmail: string -> bool, isDate: string -> bool): (errors: seq<ValidationError>)
    ensures errors == [] <==>
              && isEmail(RuleText(f.email)) && MinLength(f.password, 3)
              && MinLength(f.name, 3) && MinLength(f.lastName, 3) && isDate(RuleText(f.dateOfBirth))
              && ZipCodeOk(f.zipCode) && MinLength(f.city, 3) && MinLength(f.state, 2)
    ensures Names(errors, "zipCode") <==> !ZipCodeOk(f.zipCode)
    ensures Names(errors, "state") <==> !MinLength(f.state, 2)
    ensures |errors| <= 8
  {
    var common := CommonErrors(f.email, f.password, isEmail);
    var name := Rule(MinLength(f.name, 3), "name", "Nome deve ter no mínimo 3 caracteres");
    var lastName := Rule(MinLength(f.lastName, 3), "lastName", "Sobrenome deve ter no mínimo 3 caracteres");
    var birth := Rule(isDate(RuleText(f.dateOfBirth)), "dateOfBirth", "Data de nascimento inválida");
    var zip := Rule(ZipCodeOk(f.zipCode), "zipCode", "CEP inválido");
    var city := Rule(MinLength(f.city, 3), "city", "Cidade inválida");
    var state := Rule(MinLength(f.state, 2), "state", "Estado inválido");
    var front := common + name + lastName + birth;
    FrontNames(common, name, lastName, birth);
    RuleNames(ZipCodeOk(f.zipCode), "zipCode", "CEP inválido", "state");
    RuleNames(MinLength(f.city, 3), "city", "Cidade inválida", "zipCode");
    RuleNames(MinLength(f.city, 3), "city", "Cidade inválida", "state");
    RuleNames(MinLength(f.state, 2), "state", "Estado inválido", "zipCode");
    NamesConcat(front, zip, "zipCode");
    NamesConcat(front + zip, city, "zipCode");
    NamesConcat(front + zip + city, state, "zipCode");
    NamesConcat(front, zip, "state");
    NamesConcat(front + zip, city, "state");
    NamesConcat(front + zip + city, state, "state");
    front + zip + city + state
  }

  /** No rule before the zip code names the zip code or the state. */
  lemma FrontNames(common: seq<ValidationError>, name: seq<ValidationError>, lastName: seq<ValidationError>,
                   birth: seq<ValidationError>)
    requires forall e :: e in common ==> e.param in {"email", "password"}
    requires forall e :: e in name + lastName + birth ==> e.param in {"name", "lastName", "dateOfBirth"}
    ensures !Names(common + name + lastName + birth, "zipCode") && !Names(common + name + lastName + birth, "state")
  {
    var all := common + name + lastName + birth;
    forall k | 0 <= k < |all|
      ensures all[k].param != "zipCode" && all[k].param != "state"
    {
      if k < |common| {
        assert all[k] in common;
      } else {
        assert all[k] == (name + lastName + birth)[k - |common|];
        assert all[k] in name + lastName + birth;
      }
    }
  }

  /** The user signup hands to the insert: pending, an ordinary user, no photos, and the hash in place of the password. */
  function NewUser(f: SignupForm, hashed: JsValue): (u: UserModel)
    ensures u.status == Some(AtivacaoPendente) && u.userType == OrdinaryUser
    ensures u.password == hashed
    ensures u.name == f.name && u.lastName == f.lastName && u.email == f.email
    ensures u.dateOfBirth == f.dateOfBirth && u.zipCode == f.zipCode && u.city == f.city && u.state == f.state
    ensures u.photo == Null && u.photoDocument == Null && u.id == Undefined
  {
    UserModel(Undefined, f.name, f.lastName, f.dateOfBirth, f.zipCode, f.city, f.state, f.email, hashed,
              Some(AtivacaoPendente), OrdinaryUser, Null, Null)
  }

  /**
    bcrypt's `hash` and `compare`, as the password helper calls them, reject
    ("Illegal arguments") unless every argument is a string.
   */
  ghost predicate HashRejectsNonStrings(hash: JsValue -> Result<JsValue, Thrown>) {
    forall v: JsValue :: !v.Str? ==> hash(v).Failure?
  }

  ghost predicate CompareRejectsNonStrings(compare: (JsValue, JsValue) -> Result<bool, Thrown>) {
    forall a: JsValue, b: JsValue :: !(a.Str? && b.Str?) ==> compare(a, b).Failure?
  }

  /**
    `signup`: a failing lookup is not answered at all (building its error
    body throws inside the handler); an empty lookup leads to hashing the
    password, then an insert and 201 with no body, or a thrown insert error
    handed on; a non-empty one to 409 without an insert. Hashing is awaited
    outside any `try`, so a rejected hash is not answered either.
   */
  function Signup(errors: seq<ValidationError>, f: SignupForm, lookup: Result<seq<UserRow>, Thrown>,
                  hash: JsValue -> Result<JsValue, Thrown>, insert: Result<JsValue, Thrown>): (h: Handled)
    ensures |errors| > 0 ==> h.calls == [] && h.reply == Send(Response(422, Errors(errors)))
    ensures |errors| == 0 ==> |h.calls| >= 1 && h.calls[0] == UserFindOne(f.email)
    ensures |errors| == 0 && lookup.Failure? ==> h == Handled([UserFindOne(f.email)], Unhandled)
    ensures h.reply == Unhandled <==>
              |errors| == 0 && (lookup.Failure? || (lookup == Success([]) && hash(f.password).Failure?))
    ensures (exists u :: UserInsert(u) in h.calls) <==>
              |errors| == 0 && lookup == Success([]) && hash(f.password).Success?
    ensures forall u :: UserInsert(u) in h.calls ==> u == NewUser(f, hash(f.password).value)
    ensures |errors| == 0 && lookup.Success? && lookup.value != [] ==>
              h.reply == Send(ErrorResponse(409, "Email já cadastrado", Str("409")))
    ensures Answers(h.reply, 201) <==>
              |errors| == 0 && lookup == Success([]) && hash(f.password).Success? && insert.Success?
    ensures Answers(h.reply, 201) ==> h.reply.response.body == NoBody
    ensures |errors| == 0 && lookup == Success([]) && hash(f.password).Success? && insert.Failure? ==>
              h.reply == Forward(ErrorOf(insert.error))
  {
    if |errors| > 0 then Halt(errors)
    else
      var find := UserFindOne(f.email);
      match lookup
      case Failure(_) => Handled([find], Unhandled)
      case Success(rows) =>
        if rows == [] then
          match hash(f.password)
          case Failure(_) => Handled([find], Unhandled)
          case Success(hashed) =>
            var user := NewUser(f, hashed);
            var calls := [find, UserInsert(user)];
            assert calls[1] == UserInsert(user);
            match insert
            case Failure(e) => Handled(calls, Forward(ErrorOf(e)))
            case Success(_) => Handled(calls, Send(Response(201, NoBody)))
        else
          Handled([find], Send(ErrorResponse(409, "Email já cadastrado", Str("409"))))
  }

  /**
    A password that is not a string (a number, say) can pass the length
    rule, which reads its text; bcrypt then rejects it, so a signup with a
    free e-mail gets no answer and inserts nothing.
   */
  lemma NonStringPasswordUnanswered(f: SignupForm, hash: JsValue -> Result<JsValue, Thrown>,
                                    insert: Result<JsValue, Thrown>)
    requires HashRejectsNonStrings(hash)
    requires !f.password.Str?
    ensures var h := Signup([], f, Success([]), hash, insert);
            h == Handled([UserFindOne(f.email)], Unhandled)
  {
  }

  /** A taken e-mail is never inserted again, whatever the insert would have done. */
  lemma TakenEmailNeverInserted(f: SignupForm, row: UserRow, rows: seq<UserRow>, hash: JsValue -> Result<JsValue, Thrown>,
                                insert: Result<JsValue, Thrown>)
    ensures var h := Signup([], f, Success([row] + rows), hash, insert);
            h.calls == [UserFindOne(f.email)] && !Answers(h.reply, 201)
  {
  }

  /** The plaintext password is stored only if the hash leaves it unchanged. */
  lemma PlaintextNeverStored(f: SignupForm, hash: JsValue -> Result<JsValue, Thrown>, insert: Result<JsValue, Thrown>)
    requires hash(f.password) != Success(f.password)
    ensures forall u :: UserInsert(u) in Signup([], f, Success([]), hash, insert).calls ==> u.password != f.password
  {
  }

  /** The claims signin puts in a token: the first row's id, `nome`, email and `nivel`. */
  function SigninClaims(row: UserRow): (c: Claims)
    ensures c.id == Field(row, "id") && c.name == Field(row, "nome") && c.email == Field(row, "email")
    ensures "nivel" !in row ==> c.level == Undefined
  {
    Claims(Field(row, "id"), Field(row, "nome"), Field(row, "email"), Field(row, "nivel"))
  }

  /** The lookup does not select `nivel`, so a token's level is always undefined. */
  lemma LevelAlwaysUndefined(row: UserRow)
    requires row.Keys <= LookupColumns
    ensures SigninClaims(row).level == Undefined
  {
    assert "nivel" !in LookupColumns;
  }

  /** The library calls signin depends on. */
  datatype Libraries = Libraries(
    passwordMatches: (JsValue, JsValue) -> Result<bool, Thrown>,
    envKey: JsValue,
    now: int,
    addDays: (int, int) -> int,
    sign: (Claims, JsValue, int) -> string)

  /** The token signin issues for a matching row. */
  function TokenFor(row: UserRow, appKey: JsValue, lib: Libraries): Issued {
    var c := SigninClaims(row);
    CreateJWT(c.id, c.name, c.email, c.level, appKey, lib.envKey, lib.now, lib.addDays, lib.sign)
  }

  /** The message of every failed signin. */
  const BadCredentials := ErrorResponse(401, "Usuário ou senha inválidos", Str("401"))

  /**
    `signin`: 200 with a token exactly when the lookup found a user and the
    password matches the first row's `senha`; every other answered case is
    the same 401, so an unknown e-mail and a wrong password look alike. The
    comparison is awaited outside any `try`, so a rejected comparison is
    not answered.
   */
  function Signin(errors: seq<ValidationError>, email: JsValue, password: JsValue,
                  lookup: Result<seq<UserRow>, Thrown>, appKey: JsValue, lib: Libraries): (h: Handled)
    ensures |errors| > 0 ==> h.calls == [] && h.reply == Send(Response(422, Errors(errors)))
    ensures |errors| == 0 ==> h.calls == [UserFindOne(email)]
    ensures |errors| == 0 && lookup.Failure? ==> h.reply == Forward(ErrorOf(lookup.error))
    ensures Answers(h.reply, 200) <==>
              && |errors| == 0 && lookup.Success? && lookup.value != []
              && lib.passwordMatches(password, Field(lookup.value[0], "senha")) == Success(true)
    ensures h.reply == Unhandled <==>
              && |errors| == 0 && lookup.Success? && lookup.value != []
              && lib.passwordMatches(password, Field(lookup.value[0], "senha")).Failure?
    ensures Answers(h.reply, 200) ==>
              var issued := TokenFor(lookup.value[0], appKey, lib);
              h.reply.response.body == Authentication(issued.token, issued.expiresIn)
    ensures |errors| == 0 && lookup.Success? && !Answers(h.reply, 200) && h.reply != Unhandled ==>
              h.reply == Send(BadCredentials)
  {
    if |errors| > 0 then Halt(errors)
    else
      var calls := [UserFindOne(email)];
      match lookup
      case Failure(e) => Handled(calls, Forward(ErrorOf(e)))
      case Success(rows) =>
        if rows == [] then Handled(calls, Send(BadCredentials))
        else
          match lib.passwordMatches(password, Field(rows[0], "senha"))
          case Failure(_) => Handled(calls, Unhandled)
          case Success(false) => Handled(calls, Send(BadCredentials))
          case Success(true) =>
            var issued := TokenFor(rows[0], appKey, lib);
            Handled(calls, Send(Response(200, Authentication(issued.token, issued.expiresIn))))
  }

  /** An unknown e-mail and a wrong password give the same answer. */
  lemma FailuresLookAlike(email: JsValue, password: JsValue, row: UserRow, rows: seq<UserRow>,
                          appKey: JsValue, lib: Libraries)
    requires lib.passwordMatches(password, Field(row, "senha")) == Success(false)
    ensures Signin([], email, password, Success([]), appKey, lib).reply
         == Signin([], email, password, Success([row] + rows), appKey, lib).reply
  {
  }

  /**
    A password that is not a string, or a stored hash that is not one (a
    NULL `senha`), makes bcrypt reject the comparison: the signin gets no
    answer.
   */
  lemma NonStringCredentialsUnanswered(email: JsValue, password: JsValue, row: UserRow, rows: seq<UserRow>,
                                       appKey: JsValue, lib: Libraries)
    requires CompareRejectsNonStrings(lib.passwordMatches)
    requires !password.Str? || !Field(row, "senha").Str?
    ensures Signin([], email, password, Success([row] + rows), appKey, lib) == Handled([UserFindOne(email)], Unhandled)
  {
  }

  /**
    The token signin issues passes `check` when both use the application's
    key and it is set; the handler behind `check` sees the row's id, name and
    e-mail and an undefined level.
   */
  lemma SigninTokenPassesCheck(email: JsValue, password: JsValue, row: UserRow, rows: seq<UserRow>,
                               appKey: JsValue, lib: Libraries, verify: (JsValue, JsValue) -> Option<Claims>)
    requires row.Keys <= LookupColumns
    requires lib.passwordMatches(password, Field(row, "senha")) == Success(true)
    requires Truthy(appKey)
    requires forall p, k, e :: ' ' !in lib.sign(p, k, e) && verify(Str(lib.sign(p, k, e)), k) == Some(p)
    ensures var h := Signin([], email, password, Success([row] + rows), appKey, lib);
            && h.reply.Send? && h.reply.response.body.Authentication?
            && var g := Check([], Some(BearerPrefix + h.reply.response.body.token), appKey, verify);
               g == Proceed(Claims(Field(row, "id"), Field(row, "nome"), Field(row, "email"), Undefined))
  {
    LevelAlwaysUndefined(row);
    var c := SigninClaims(row);
    IssuedTokenPassesCheck(c.id, c.name, c.email, c.level, appKey, lib.envKey, lib.now, lib.addDays, lib.sign, verify);
  }
}
