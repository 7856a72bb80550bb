/** Types shared by the modules of the authentication core. */
module Common {

  datatype Option<+T> = None | Some(value: T)

  datatype Result<+T, +E> = Success(value: T) | Failure(error: E)

  /** The HTTP exceptions the core throws, by their NestJS class. */
  datatype HttpException =
    | BadRequest(message: string)
    | InternalServerError(message: string)

  /** Sign-in providers (the `Providers` enum); EMAIL is the column default. */
  datatype Provider = EMAIL | GOOGLE

  /** The claims of an issued token: the user's id and nothing else. */
  datatype JwtPayload = JwtPayload(id: nat)

  /** A JavaScript value as it appears in a user object or a response body.
      `Token(claims)` stands for the string `JwtService.sign(claims)` returns;
      `Method(name)` for a function found on the entity's prototype. */
  datatype JsValue =
    | Undefined
    | Null
    | Num(n: int)
    | Str(s: string)
    | Bool(b: bool)
    | StrList(items: seq<string>)
    | ProviderValue(provider: Provider)
    | Token(claims: JwtPayload)
    | Method(name: string)
}
