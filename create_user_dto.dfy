/** The sign-up request body and its validation constraints. */
module CreateUser {
  import opened Common
  import opened PasswordRule

  /** The raw `provider` property of a request body: absent, a member of
      `Providers`, or any other string (which is no member). */
  datatype ProviderInput = Missing | Member(provider: Provider) | Other(raw: string)

  /** JavaScript falsiness of the property: `undefined` or the empty string. */
  predicate IsFalsy(input: ProviderInput) {
    input.Missing? || (input.Other? && input.raw == "")
  }

  /** The properties of the body that can fail validation (`email` is checked
      by `@IsEmail`, which is not part of this model). */
  datatype Property = PasswordProp | FirstNameProp | LastNameProp | ProviderProp

  /** `@ValidateIf`: the password constraints run for e-mail sign-ups and when
      no provider is given. */
  predicate PasswordChecked(provider: ProviderInput) {
    provider == Member(EMAIL) || IsFalsy(provider)
  }

  /** `@IsString @MinLength(2)` on a name. */
  predicate NameValid(name: string) {
    |name| >= 2
  }

  /** The properties whose constraints fail; an empty set admits the body. */
  function Violations(password: Option<string>, firstName: string, lastName: string,
                      provider: ProviderInput): (errs: set<Property>)
    ensures PasswordProp in errs <==> PasswordChecked(provider) && !PasswordValid(password)
    ensures FirstNameProp in errs <==> |firstName| < 2
    ensures LastNameProp in errs <==> |lastName| < 2
    ensures ProviderProp in errs <==> !provider.Member?
  {
    (if PasswordChecked(provider) && !PasswordValid(password) then {PasswordProp} else {})
    + (if NameValid(firstName) then {} else {FirstNameProp})
    + (if NameValid(lastName) then {} else {LastNameProp})
    // class-validator checks every decorated property, and an absent value is no enum member
    + (if provider.Member? then {} else {ProviderProp})
  }

  /** An admitted body names a provider, so the falsy arm of `@ValidateIf`
      never admits one: the password is checked exactly for e-mail sign-ups. */
  lemma AdmittedBody(password: Option<string>, firstName: string, lastName: string,
                     provider: ProviderInput)
    requires Violations(password, firstName, lastName, provider) == {}
    ensures provider.Member?
    ensures provider.provider == EMAIL ==> PasswordValid(password)
    ensures |firstName| >= 2 && |lastName| >= 2
  {
    assert ProviderProp !in Violations(password, firstName, lastName, provider);
    assert PasswordProp !in Violations(password, firstName, lastName, provider);
  }

  /** A body for another provider is admitted whatever its password is, even
      when it has none. */
  lemma OtherProviderSkipsPassword(password: Option<string>, firstName: string, lastName: string)
    requires |firstName| >= 2 && |lastName| >= 2
    ensures Violations(password, firstName, lastName, Member(GOOGLE)) == {}
  {
  }

  /** The documented example password passes in an e-mail sign-up. */
  lemma ExampleSignupAccepted()
    ensures Violations(Some("StrongP@ss123"), "John", "Doe", Member(EMAIL)) == {}
  {
    ExampleAccepted();
  }

  /** The request body as the service receives it; the service overwrites
      `password` in place. */
  class CreateUserDto {
    var email: string
    var password: Option<string>
    var firstName: string
    var lastName: string
    var provider: ProviderInput

    constructor (email: string, password: Option<string>, firstName: string, lastName: string,
                 provider: ProviderInput)
      ensures this.email == email && this.password == password
      ensures this.firstName == firstName && this.lastName == lastName && this.provider == provider
    {
      this.email := email;
      this.password := password;
      this.firstName := firstName;
      this.lastName := lastName;
      this.provider := provider;
    }
  }
}
