/** The `GetUser` parameter decorator: the request's user, one of its
    properties, or a list of them. */
module GetUser {
  import opened Common
  import opened UserEntity

  /** The decorator argument `data`: absent, null, a property name, a list of
      property names, or any other value with its JavaScript truthiness. */
  datatype Data = Absent | NullData | Key(key: string) | Keys(keys: seq<string>) | OtherData(truthy: bool)

  predicate Truthy(data: Data) {
    match data
    case Absent => false
    case NullData => false
    case Key(key) => key != ""
    case Keys(_) => true
    case OtherData(truthy) => truthy
  }

  /** What the decorator hands to the handler. */
  datatype Extracted = WholeUser(user: UserRow) | Value(value: JsValue) | Values(values: seq<JsValue>)

  /** The methods a `User` instance inherits from its class. */
  const ENTITY_METHODS: set<string> := {"verifyEmail", "verifyEmailOnUpdate"}

  /** `user[key]`: a column's value, an inherited method, or `undefined`. */
  function Property(user: UserRow, key: string): (v: JsValue)
    ensures key in USER_KEYS ==> v == UserObject(user)[key]
    ensures key in ENTITY_METHODS ==> v == Method(key)
    ensures key !in USER_KEYS && key !in ENTITY_METHODS ==> v == Undefined
  {
    if key in USER_KEYS then UserObject(user)[key]
    else if key in ENTITY_METHODS then Method(key)
    else Undefined
  }

  /** The decorator's body. A missing user is a server fault whatever `data` is. */
  function Extract(data: Data, user: Option<UserRow>): (r: Result<Extracted, HttpException>)
    ensures user.None? <==> r.Failure?
    ensures user.None? ==> r == Failure(InternalServerError("User not found in request"))
    ensures user.Some? && !Truthy(data) ==> r == Success(WholeUser(user.value))
    ensures user.Some? && data.OtherData? ==> r == Success(WholeUser(user.value))
    ensures user.Some? && Truthy(data) && data.Key? ==> r == Success(Value(Property(user.value, data.key)))
    ensures user.Some? && data.Keys? ==>
      && r.Success? && r.value.Values?
      && |r.value.values| == |data.keys|
      && forall i :: 0 <= i < |data.keys| ==> r.value.values[i] == Property(user.value, data.keys[i])
  {
    if user.None? then Failure(InternalServerError("User not found in request"))
    else if Truthy(data) && data.Key? then Success(Value(Property(user.value, data.key)))
    else if Truthy(data) && data.Keys? then
      Success(Values(seq(|data.keys|, i requires 0 <= i < |data.keys| => Property(user.value, data.keys[i]))))
    else Success(WholeUser(user.value))
  }

  /** A list of names yields, position by position, what each name yields
      alone, except the empty name: alone it is falsy and yields the whole
      user, inside a list it yields `undefined`. */
  lemma ListAgreesWithSingleKeys(user: UserRow, keys: seq<string>, i: nat)
    requires i < |keys|
    ensures keys[i] != "" ==>
      Extract(Key(keys[i]), Some(user)) == Success(Value(Extract(Keys(keys), Some(user)).value.values[i]))
    ensures keys[i] == "" ==>
      && Extract(Keys(keys), Some(user)).value.values[i] == Undefined
      && Extract(Key(keys[i]), Some(user)) == Success(WholeUser(user))
  {
    assert "" !in USER_KEYS && "" !in ENTITY_METHODS;
  }

  /** An empty list of names yields an empty list, not the user. */
  lemma EmptyListYieldsEmptyList(user: UserRow)
    ensures Extract(Keys([]), Some(user)) == Success(Values([]))
  {
  }
}
