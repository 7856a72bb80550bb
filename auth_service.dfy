/** `AuthService`: sign-up, login, status check, token issue and the mapping
    of store errors to HTTP exceptions. The repository is a map from the
    stored (normalised) e-mail to the user row; bcrypt is a pair of functions;
    a token is the value `Token(claims)`. */
module Auth {
  import opened Common
  import opened UserEntity
  import opened CreateUser
  import opened LoginUser

  /** bcrypt reduced to `hash(password, salt)` and `compareSync(password, digest)`. */
  datatype Hasher = Hasher(hash: (string, string) -> string, compareSync: (string, string) -> bool)

  /** The one property of bcrypt the model relies on: a password matches its own digest. */
  ghost predicate Sound(h: Hasher) {
    forall password, salt :: h.compareSync(password, h.hash(password, salt))
  }

  /** An error thrown inside a service method: the SQLSTATE `code` when it
      comes from PostgreSQL, and the `detail` text. */
  datatype ThrownError = ThrownError(code: Option<string>, detail: string)

  /** SQLSTATE `unique_violation`. */
  const UNIQUE_VIOLATION: string := "23505"

  /** SQLSTATE `invalid_text_representation`, raised for a value outside the provider enum. */
  const INVALID_TEXT_REPRESENTATION: string := "22P02"

  const UNEXPECTED: string := "Unexpected error, check server logs"

  const CREDENTIALS_NOT_VALID: string := "Credentials are not valid"

  /** What PostgreSQL reports when an insert repeats a stored e-mail: a unique
      violation whose detail text quotes the e-mail, so the client sees it. */
  function DuplicateEmail(email: string): (e: ThrownError)
    ensures e.code == Some(UNIQUE_VIOLATION)
    ensures HandleDbErrors(e) == BadRequest(e.detail)
    ensures |e.detail| == |email| + 30 && e.detail[13..13 + |email|] == email
  {
    ThrownError(Some(UNIQUE_VIOLATION), "Key (email)=(" + email + ") already exists.")
  }

  /** What PostgreSQL reports for a provider outside the enum. */
  const INVALID_PROVIDER: ThrownError := ThrownError(Some(INVALID_TEXT_REPRESENTATION), "")

  /** What bcrypt throws for a missing password or digest (no SQLSTATE). */
  const MISSING_ARGUMENT: ThrownError := ThrownError(None, "")

  /** `handleDBErrors`: it never returns normally, so the model returns the
      exception it throws. Only a unique violation reaches the client with
      its text; everything else becomes the same generic internal error. */
  function HandleDbErrors(error: ThrownError): (e: HttpException)
    ensures e.BadRequest? <==> error.code == Some(UNIQUE_VIOLATION)
    ensures e.BadRequest? ==> e.message == error.detail
    ensures e.InternalServerError? ==> e.message == UNEXPECTED
  {
    if error.code == Some(UNIQUE_VIOLATION) then BadRequest(error.detail)
    else InternalServerError(UNEXPECTED)
  }

  /** `getJwt`: the token is signed over the payload it is given and nothing more. */
  function GetJwt(payload: JwtPayload): (token: JsValue)
    ensures token.Token? && token.claims == payload
  {
    Token(payload)
  }

  /** `{ ...userWithoutPassword, token }`, the body `create` and `login` return. */
  function SessionResponse(user: UserRow): (r: map<string, JsValue>)
    ensures r.Keys == USER_KEYS - {"password"} + {"token"}
    ensures forall k :: k in USER_KEYS && k != "password" ==> r[k] == UserObject(user)[k]
    ensures r["token"] == Token(JwtPayload(user.id))
  {
    (UserObject(user) - {"password"})["token" := GetJwt(JwtPayload(user.id))]
  }

  /** `checkAuthStatus`: every property of the given user, the password
      included, and a fresh token for the same id. The store is not consulted. */
  function CheckAuthStatus(user: UserRow): (r: map<string, JsValue>)
    ensures r.Keys == USER_KEYS + {"token"}
    ensures forall k :: k in USER_KEYS ==> r[k] == UserObject(user)[k]
    ensures r["token"] == Token(JwtPayload(user.id))
  {
    UserObject(user)["token" := GetJwt(JwtPayload(user.id))]
  }

  /** The status body is the login body plus the password property. */
  lemma StatusExtendsSession(user: UserRow)
    ensures CheckAuthStatus(user) - {"password"} == SessionResponse(user)
    ensures CheckAuthStatus(user) == SessionResponse(user)["password" := UserObject(user)["password"]]
  {
    var status, session := CheckAuthStatus(user), SessionResponse(user);
    assert (status - {"password"}).Keys == session.Keys;
    assert session["password" := UserObject(user)["password"]].Keys == status.Keys;
  }

  /** The provider column a new record receives: the given member, or the
      EMAIL default when the body has none. */
  function ProviderColumn(input: ProviderInput): Provider
    requires !input.Other?
  {
    if input.Member? then input.provider else EMAIL
  }

  /** Rows are keyed by their own e-mail, which is always in normal form (the
      unique index therefore compares normalised addresses); ids are distinct
      and below the next sequence value. */
  ghost predicate StoreValid(users: map<string, UserRow>, nextId: nat) {
    && nextId >= 1
    && (forall e :: e in users ==>
          users[e].email == e && InNormalForm(e) && 1 <= users[e].id < nextId)
    && (forall e1, e2 :: e1 in users && e2 in users && e1 != e2 ==> users[e1].id != users[e2].id)
  }

  /** Inserting a row with a fresh, normal e-mail and the next id keeps the store valid. */
  lemma StoreInsert(users: map<string, UserRow>, nextId: nat, row: UserRow)
    requires StoreValid(users, nextId)
    requires row.email !in users && InNormalForm(row.email) && row.id == nextId
    ensures StoreValid(users[row.email := row], nextId + 1)
  {
    var after := users[row.email := row];
    forall e | e in after
      ensures after[e].email == e && InNormalForm(e) && 1 <= after[e].id < nextId + 1
    {
      if e != row.email {
        assert after[e] == users[e];
      }
    }
    forall e1, e2 | e1 in after && e2 in after && e1 != e2
      ensures after[e1].id != after[e2].id
    {
      if e1 != row.email && e2 != row.email {
        assert after[e1] == users[e1] && after[e2] == users[e2];
      }
    }
  }

  class AuthService {
    /** The `users` table, keyed by the stored e-mail. */
    var users: map<string, UserRow>
    /** The next value of the id sequence. */
    var nextId: nat
    const hasher: Hasher

    ghost predicate Valid()
      reads this
    {
      Sound(hasher) && StoreValid(users, nextId)
    }

    /** The service over the existing `users` table and its id sequence. */
    constructor (hasher: Hasher, users: map<string, UserRow>, nextId: nat)
      requires Sound(hasher) && StoreValid(users, nextId)
      ensures Valid() && this.users == users && this.nextId == nextId && this.hasher == hasher
    {
      this.users := users;
      this.nextId := nextId;
      this.hasher := hasher;
    }

    /** `create` (sign-up). `salt` is what `bcrypt.genSalt` produced; `fault`
        is a failure of the store itself, if the insert meets one. */
    method Create(dto: CreateUserDto, salt: string, fault: Option<ThrownError>)
      returns (r: Result<map<string, JsValue>, HttpException>)
      requires Valid()
      modifies this, dto
      ensures Valid()
      // the body's password is overwritten in place by its digest; nothing else in it changes
      ensures dto.password == if old(dto.password).Some?
                              then Some(hasher.hash(old(dto.password).value, salt)) else None
      ensures dto.email == old(dto.email) && dto.firstName == old(dto.firstName)
      ensures dto.lastName == old(dto.lastName) && dto.provider == old(dto.provider)
      // failures leave the store as it was
      ensures r.Failure? ==> users == old(users) && nextId == old(nextId)
      // bcrypt rejects a missing password before anything is stored
      ensures old(dto.password).None? ==> r == Failure(InternalServerError(UNEXPECTED))
      ensures old(dto.password).Some? && fault.Some? ==> r == Failure(HandleDbErrors(fault.value))
      ensures old(dto.password).Some? && fault.None? && old(dto.provider).Other? ==>
                r == Failure(InternalServerError(UNEXPECTED))
      // a second sign-up whose e-mail normalises to a stored one collides
      ensures old(dto.password).Some? && fault.None? && !old(dto.provider).Other?
              && NormalizeEmail(old(dto.email)) in old(users) ==>
                r == Failure(BadRequest(DuplicateEmail(NormalizeEmail(old(dto.email))).detail))
      ensures old(dto.password).Some? && fault.None? && !old(dto.provider).Other?
              && NormalizeEmail(old(dto.email)) !in old(users) ==>
                var row := UserRow(old(nextId), NormalizeEmail(old(dto.email)),
                                   Some(hasher.hash(old(dto.password).value, salt)),
                                   old(dto.firstName), old(dto.lastName), true, [ROLE_USER],
                                   ProviderColumn(old(dto.provider)));
                && users == old(users)[row.email := row]
                && nextId == old(nextId) + 1
                && r == Success(SessionResponse(row))
    {
      var password := dto.password;
      if password.None? {
        return Failure(HandleDbErrors(MISSING_ARGUMENT));
      }
      dto.password := Some(hasher.hash(password.value, salt));

      // `userRepository.create`: an entity with the column defaults
      var provider := if dto.provider.Member? then Some(dto.provider.provider) else None;
      var user := new User(dto.email, dto.password, dto.firstName, dto.lastName, provider);

      var error := Save(user, dto.provider, fault);
      if error.Some? {
        return Failure(HandleDbErrors(error.value));
      }
      r := Success(SessionResponse(user.Row()));
    }

    /** `userRepository.save` of a new entity whose provider property holds
        `provider`: the insert listener normalises the e-mail, then the insert
        either fails with the error returned or stores the row under the next id. */
    method Save(user: User, provider: ProviderInput, fault: Option<ThrownError>)
      returns (error: Option<ThrownError>)
      requires Valid()
      modifies this, user
      ensures Valid()
      ensures error.None? <==> fault.None? && !provider.Other? && NormalizeEmail(old(user.email)) !in old(users)
      ensures error.Some? ==>
        && users == old(users) && nextId == old(nextId)
        && error.value == (if fault.Some? then fault.value
                           else if provider.Other? then INVALID_PROVIDER
                           else DuplicateEmail(NormalizeEmail(old(user.email))))
      ensures error.None? ==>
        && user.Row() == old(user.Row()).(id := old(nextId), email := NormalizeEmail(old(user.email)))
        && users == old(users)[user.email := user.Row()]
        && nextId == old(nextId) + 1
    {
      user.VerifyEmail();
      if fault.Some? {
        return Some(fault.value);
      }
      if provider.Other? {
        return Some(INVALID_PROVIDER);
      }
      if user.email in users {
        return Some(DuplicateEmail(user.email));
      }
      user.id := nextId;
      StoreInsert(users, nextId, user.Row());
      users := users[user.email := user.Row()];
      nextId := nextId + 1;
      error := None;
    }

    /** `login`. The e-mail is looked up exactly as given; `fault` is a
        failure of the store during the lookup, if any. */
    function Login(dto: LoginUserDto, fault: Option<ThrownError>)
      : (r: Result<map<string, JsValue>, HttpException>)
      reads this
      ensures fault.Some? ==> r == Failure(HandleDbErrors(fault.value))
      ensures fault.None? && dto.email !in users ==> r == Failure(BadRequest(CREDENTIALS_NOT_VALID))
      // bcrypt throws on a missing password or digest, and that error is no BadRequest
      ensures fault.None? && dto.email in users && (dto.password.None? || users[dto.email].password.None?)
              ==> r == Failure(InternalServerError(UNEXPECTED))
      ensures fault.None? && dto.email in users && dto.password.Some? && users[dto.email].password.Some?
              && !hasher.compareSync(dto.password.value, users[dto.email].password.value)
              ==> r == Failure(BadRequest(CREDENTIALS_NOT_VALID))
      ensures r.Success? <==>
        && fault.None? && dto.email in users
        && dto.password.Some? && users[dto.email].password.Some?
        && hasher.compareSync(dto.password.value, users[dto.email].password.value)
      ensures r.Success? ==> r.value == SessionResponse(users[dto.email])
    {
      if fault.Some? then Failure(HandleDbErrors(fault.value))
      else if dto.email !in users then Failure(BadRequest(CREDENTIALS_NOT_VALID))
      else
        var user := users[dto.email];
        if dto.password.None? || user.password.None? then
          // bcrypt throws on a missing argument: not a BadRequest, so it goes to `handleDBErrors`
          Failure(HandleDbErrors(MISSING_ARGUMENT))
        else if !hasher.compareSync(dto.password.value, user.password.value) then
          Failure(BadRequest(CREDENTIALS_NOT_VALID))
        else
          Success(SessionResponse(user))
    }
  }

  /** An unknown e-mail and a wrong password produce the same error. */
  lemma CredentialErrorsIdentical(svc: AuthService, unknown: LoginUserDto, wrong: LoginUserDto)
    requires unknown.email !in svc.users
    requires wrong.email in svc.users && wrong.password.Some? && svc.users[wrong.email].password.Some?
    requires !svc.hasher.compareSync(wrong.password.value, svc.users[wrong.email].password.value)
    ensures svc.Login(unknown, None) == svc.Login(wrong, None)
    ensures svc.Login(unknown, None) == Failure(BadRequest(CREDENTIALS_NOT_VALID))
  {
  }

  /** A stored password logs in: the login body carries the row without its
      password and a token for the row's id. */
  lemma LoginAfterSignup(svc: AuthService, email: string, password: string, salt: string)
    requires Sound(svc.hasher)
    requires email in svc.users && svc.users[email].password == Some(svc.hasher.hash(password, salt))
    ensures svc.Login(LoginUserDto(email, Some(password)), None) == Success(SessionResponse(svc.users[email]))
  {
    assert svc.hasher.compareSync(password, svc.hasher.hash(password, salt));
  }

  /** The service does not normalise the login e-mail: an address that is not
      in normal form never matches a stored row. */
  lemma LoginRejectsUnnormalisedEmail(svc: AuthService, dto: LoginUserDto)
    requires StoreValid(svc.users, svc.nextId) && NormalizeEmail(dto.email) != dto.email
    ensures svc.Login(dto, None) == Failure(BadRequest(CREDENTIALS_NOT_VALID))
  {
    NormalFixpoint(dto.email);
  }

  /** So 'Alice@Example.com' never logs in, even after a sign-up with that
      very address (which is stored as 'alice@example.com'). */
  lemma MixedCaseLoginFails(svc: AuthService, password: Option<string>)
    requires StoreValid(svc.users, svc.nextId)
    ensures svc.Login(LoginUserDto("Alice@Example.com", password), None)
            == Failure(BadRequest(CREDENTIALS_NOT_VALID))
  {
    var e := "Alice@Example.com";
    assert IsAsciiUpper(e[0]);
    assert e !in svc.users;
  }

  /** An e-mail sign-up followed by a login with the stored address and the
      same password succeeds. */
  method SignupThenLogin(svc: AuthService, dto: CreateUserDto, salt: string)
    returns (signup: Result<map<string, JsValue>, HttpException>,
             login: Result<map<string, JsValue>, HttpException>)
    requires svc.Valid() && dto.password.Some? && dto.provider == Member(EMAIL)
    requires NormalizeEmail(dto.email) !in svc.users
    modifies svc, dto
    ensures signup.Success? && login.Success?
    // both bodies carry a token for the id of the row stored under the normalised e-mail
    ensures NormalizeEmail(old(dto.email)) in svc.users
    ensures "token" in signup.value && "token" in login.value
    ensures signup.value["token"] == Token(JwtPayload(svc.users[NormalizeEmail(old(dto.email))].id))
    ensures login.value["token"] == Token(JwtPayload(svc.users[NormalizeEmail(old(dto.email))].id))
  {
    var password := dto.password.value;
    signup := svc.Create(dto, salt, None);
    var email := NormalizeEmail(dto.email);
    LoginAfterSignup(svc, email, password, salt);
    login := svc.Login(LoginUserDto(email, Some(password)), None);
  }
}
