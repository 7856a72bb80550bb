/** The password-change request body and its validation constraints. */
module UpdatePassword {
  import opened Common
  import opened PasswordRule
  import LoginUser

  /** `password` is `None` when the property is absent. */
  datatype UpdatePasswordDto = UpdatePasswordDto(password: Option<string>)

  /** The same password constraints as at login; an absent password fails
      `@IsString`, as nothing marks the property optional. */
  predicate Admitted(dto: UpdatePasswordDto): (ok: bool)
    ensures ok <==> dto.password.Some? && 8 <= |dto.password.value| <= 30 && MatchesPattern(dto.password.value)
  {
    PasswordValid(dto.password)
  }

  /** A new password is admitted exactly when it would be admitted at login. */
  lemma UpdateMatchesLogin(dto: UpdatePasswordDto, email: string)
    ensures Admitted(dto) <==> LoginUser.Admitted(LoginUser.LoginUserDto(email, dto.password))
  {
  }

  lemma AbsentPasswordRejected()
    ensures !Admitted(UpdatePasswordDto(None))
  {
  }

  lemma ExampleUpdateAccepted()
    ensures Admitted(UpdatePasswordDto(Some("StrongP@ss123")))
  {
    ExampleAccepted();
  }
}
