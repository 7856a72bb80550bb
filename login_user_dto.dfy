/** The login request body and its validation constraints. */
module LoginUser {
  import opened Common
  import opened PasswordRule
  import CreateUser

  /** `password` is `None` when the property is absent. */
  datatype LoginUserDto = LoginUserDto(email: string, password: Option<string>)

  /** The password constraints, applied unconditionally (`email` is checked by
      `@IsEmail`, which is not part of this model). */
  predicate Admitted(dto: LoginUserDto): (ok: bool)
    ensures ok <==> dto.password.Some? && 8 <= |dto.password.value| <= 30 && MatchesPattern(dto.password.value)
  {
    PasswordValid(dto.password)
  }

  /** A login body passes exactly when the same password would pass in an
      e-mail sign-up with valid names. */
  lemma LoginMatchesEmailSignup(dto: LoginUserDto, firstName: string, lastName: string)
    requires |firstName| >= 2 && |lastName| >= 2
    ensures Admitted(dto) <==>
      CreateUser.Violations(dto.password, firstName, lastName, CreateUser.Member(EMAIL)) == {}
  {
    if !Admitted(dto) {
      assert CreateUser.PasswordProp in
        CreateUser.Violations(dto.password, firstName, lastName, CreateUser.Member(EMAIL));
    }
  }
}
