/** The `useFactory` that builds the JWT module options from configuration. */
module AuthModule {
  import opened Common

  datatype SignOptions = SignOptions(expiresIn: string)

  datatype JwtModuleOptions = JwtModuleOptions(secret: string, signOptions: SignOptions)

  /** A plain `Error` thrown while the module starts. */
  datatype StartupError = StartupError(message: string)

  /** `configService.get(key)`: `None` is `undefined`. */
  function Get(config: map<string, string>, key: string): Option<string> {
    if key in config then Some(config[key]) else None
  }

  /** The secret is checked first, then the expiry; only an undefined value is
      refused, and the options echo the configured values. */
  function JwtOptionsFactory(config: map<string, string>): (r: Result<JwtModuleOptions, StartupError>)
    ensures "JWT_SECRET" !in config ==> r == Failure(StartupError("JWT_SECRET is not defined"))
    ensures "JWT_SECRET" in config && "JWT_EXPIRES_IN" !in config ==>
      r == Failure(StartupError("JWT_EXPIRES_IN is not defined"))
    ensures r.Success? <==> "JWT_SECRET" in config && "JWT_EXPIRES_IN" in config
    ensures r.Success? ==>
      r.value.secret == config["JWT_SECRET"] && r.value.signOptions.expiresIn == config["JWT_EXPIRES_IN"]
  {
    if Get(config, "JWT_SECRET").None? then Failure(StartupError("JWT_SECRET is not defined"))
    else if Get(config, "JWT_EXPIRES_IN").None? then Failure(StartupError("JWT_EXPIRES_IN is not defined"))
    else
      Success(JwtModuleOptions(Get(config, "JWT_SECRET").value,
                               SignOptions(Get(config, "JWT_EXPIRES_IN").value)))
  }

  /** With neither value configured, the secret is the one reported. */
  lemma SecretReportedFirst()
    ensures JwtOptionsFactory(map[]) == Failure(StartupError("JWT_SECRET is not defined"))
  {
  }

  /** Empty strings are defined values and pass both checks. */
  lemma EmptyValuesAccepted()
    ensures JwtOptionsFactory(map["JWT_SECRET" := "", "JWT_EXPIRES_IN" := ""])
            == Success(JwtModuleOptions("", SignOptions("")))
  {
  }

  /** Other configuration keys do not affect the options. */
  lemma OtherKeysIgnored(config: map<string, string>, key: string, value: string)
    requires key != "JWT_SECRET" && key != "JWT_EXPIRES_IN"
    ensures JwtOptionsFactory(config[key := value]) == JwtOptionsFactory(config)
  {
  }
}
