/** `GoogleStrategy.validate`: the profile Google returns, reduced to what the
    redirect handler reads. */
module GoogleStrategy {

  datatype ProfileName = ProfileName(familyName: string, givenName: string)

  datatype ProfileEmail = ProfileEmail(value: string, verified: bool)

  datatype ProfilePhoto = ProfilePhoto(value: string)

  datatype GoogleOAuthProfile = GoogleOAuthProfile(
    id: string,
    displayName: string,
    name: ProfileName,
    emails: seq<ProfileEmail>,
    photos: seq<ProfilePhoto>,
    provider: string)

  /** The request user the strategy produces. */
  datatype GoogleUser = GoogleUser(email: string, name: string, accessToken: string)

  /** The first e-mail, the given name, and the access token unchanged. The
      first address is taken whether or not Google marks it verified. The profile must list an e-mail: `emails[0].value` throws otherwise. */
  function Validate(accessToken: string, refreshToken: string, profile: GoogleOAuthProfile)
    : (user: GoogleUser)
    requires |profile.emails| > 0
    ensures user.email == profile.emails[0].value
    ensures user.name == profile.name.givenName
    ensures user.accessToken == accessToken
  {
    GoogleUser(profile.emails[0].value, profile.name.givenName, accessToken)
  }

  /** Nothing else in the call matters: not the refresh token, the id, the
      display or family name, the verified flags, later e-mails or photos. */
  lemma ValidateReadsOnlyThreeValues(accessToken: string, refresh1: string, refresh2: string,
                                     p1: GoogleOAuthProfile, p2: GoogleOAuthProfile)
    requires |p1.emails| > 0 && |p2.emails| > 0
    requires p1.emails[0].value == p2.emails[0].value && p1.name.givenName == p2.name.givenName
    ensures Validate(accessToken, refresh1, p1) == Validate(accessToken, refresh2, p2)
  {
  }
}
