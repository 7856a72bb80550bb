/** The `users` entity: its columns, their defaults, and the e-mail
    normalisation that runs before every insert and update. */
module UserEntity {
  import opened Common

  /** The role every new record receives (`RolesEnum.USER`, stored as 'user'). */
  const ROLE_USER: string := "user"

  /** A persisted user row. `password` is null for accounts without one. */
  datatype UserRow = UserRow(
    id: nat,
    email: string,
    password: Option<string>,
    firstName: string,
    lastName: string,
    isActive: bool,
    roles: seq<string>,
    provider: Provider)

  // ---------------------------------------------------------------------
  // String.prototype.toLowerCase (ASCII letters) and String.prototype.trim
  // ---------------------------------------------------------------------

  predicate IsAsciiUpper(c: char) {
    'A' <= c <= 'Z'
  }

  function LowerChar(c: char): (d: char)
    ensures !IsAsciiUpper(d)
    ensures IsAsciiUpper(c) ==> d as int == c as int + 32
    ensures !IsAsciiUpper(c) ==> d == c
  {
    if IsAsciiUpper(c) then (c as int + 32) as char else c
  }

  function ToLower(s: string): (r: string)
    ensures |r| == |s|
    ensures forall i :: 0 <= i < |s| ==> r[i] == LowerChar(s[i])
  {
    seq(|s|, i requires 0 <= i < |s| => LowerChar(s[i]))
  }

  /** The characters `trim` removes: WhiteSpace and LineTerminator of ECMA-262. */
  predicate IsTrimmable(c: char) {
    || c == '\t' || c == '\n' || c == '\U{000B}' || c == '\U{000C}' || c == '\r'
    || c == ' ' || c == '\U{00A0}' || c == '\U{1680}' || '\U{2000}' <= c <= '\U{200A}'
    || c == '\U{2028}' || c == '\U{2029}' || c == '\U{202F}' || c == '\U{205F}'
    || c == '\U{3000}' || c == '\U{FEFF}'
  }

  predicate AllTrimmable(s: string) {
    forall i :: 0 <= i < |s| ==> IsTrimmable(s[i])
  }

  /** Drops the leading trimmable characters: the result is the suffix that
      starts at the first other character. */
  function TrimStart(s: string): (r: string)
    ensures |r| <= |s| && r == s[|s| - |r|..]
    ensures r == [] || !IsTrimmable(r[0])
    ensures AllTrimmable(s[..|s| - |r|])
  {
    if |s| > 0 && IsTrimmable(s[0]) then
      var r := TrimStart(s[1..]);
      assert s[..|s| - |r|] == [s[0]] + s[1..][..|s| - 1 - |r|];
      r
    else s
  }

  /** Drops the trailing trimmable characters: the result is the prefix that
      ends at the last other character. */
  function TrimEnd(s: string): (r: string)
    ensures |r| <= |s| && r == s[..|r|]
    ensures r == [] || !IsTrimmable(r[|r| - 1])
    ensures AllTrimmable(s[|r|..])
  {
    if |s| > 0 && IsTrimmable(s[|s| - 1]) then
      var shorter := s[..|s| - 1];
      var r := TrimEnd(shorter);
      assert s[|r|..] == shorter[|r|..] + [s[|s| - 1]];
      assert r == s[..|r|];
      r
    else s
  }

  function Trim(s: string): string {
    TrimEnd(TrimStart(s))
  }

  /** `email.toLowerCase().trim()`, the body of `verifyEmail`. */
  function NormalizeEmail(email: string): (r: string)
    ensures |r| <= |email|
    ensures InNormalForm(r)
  {
    TrimKeepsLower(ToLower(email));
    Trim(ToLower(email))
  }

  /** Trimming a string without upper-case letters leaves none. */
  lemma TrimKeepsLower(s: string)
    requires forall i :: 0 <= i < |s| ==> !IsAsciiUpper(s[i])
    ensures forall i :: 0 <= i < |Trim(s)| ==> !IsAsciiUpper(Trim(s)[i])
  {
    var start := TrimStart(s);
    forall i | 0 <= i < |start| ensures !IsAsciiUpper(start[i]) {
      assert start[i] == s[|s| - |start| + i];
    }
    var r := TrimEnd(start);
    forall i | 0 <= i < |r| ensures !IsAsciiUpper(r[i]) {
      assert r[i] == start[i];
    }
  }

  // ---------------------------------------------------------------------
  // Properties of the normalisation
  // ---------------------------------------------------------------------

  /** No upper-case ASCII letter and no trimmable character at either end. */
  predicate InNormalForm(s: string) {
    && (forall i :: 0 <= i < |s| ==> !IsAsciiUpper(s[i]))
    && (s == [] || (!IsTrimmable(s[0]) && !IsTrimmable(s[|s| - 1])))
  }

  /** The normal forms are exactly the fixed points of the normalisation. */
  lemma {:induction false} NormalFixpoint(s: string)
    ensures NormalizeEmail(s) == s <==> InNormalForm(s)
  {
    if InNormalForm(s) {
      assert ToLower(s) == s;
      assert TrimStart(s) == s;
      assert TrimEnd(s) == s;
    }
  }

  /** Normalising twice is normalising once. */
  lemma {:induction false} NormalizeIdempotent(email: string)
    ensures NormalizeEmail(NormalizeEmail(email)) == NormalizeEmail(email)
  {
    NormalFixpoint(NormalizeEmail(email));
  }

  /** Two addresses that differ only in the case of ASCII letters normalise alike. */
  lemma NormalizeIgnoresCase(a: string, b: string)
    requires |a| == |b|
    requires forall i :: 0 <= i < |a| ==> LowerChar(a[i]) == LowerChar(b[i])
    ensures NormalizeEmail(a) == NormalizeEmail(b)
  {
    assert ToLower(a) == ToLower(b);
  }

  lemma {:induction false} TrimStartSkipsSpace(pre: string, s: string)
    requires AllTrimmable(pre)
    ensures TrimStart(pre + s) == TrimStart(s)
  {
    if pre != [] {
      assert (pre + s)[1..] == pre[1..] + s;
      TrimStartSkipsSpace(pre[1..], s);
    } else {
      assert pre + s == s;
    }
  }

  lemma {:induction false} TrimEndSkipsSpace(s: string, post: string)
    requires AllTrimmable(post)
    ensures TrimEnd(s + post) == TrimEnd(s)
  {
    if post != [] {
      var shorter := post[..|post| - 1];
      assert (s + post)[..|s + post| - 1] == s + shorter;
      TrimEndSkipsSpace(s, shorter);
    } else {
      assert s + post == s;
    }
  }

  lemma {:induction false} TrimStartAppend(s: string, post: string)
    requires AllTrimmable(post)
    ensures TrimStart(s + post) == if TrimStart(s) == [] then TrimStart(post) else TrimStart(s) + post
  {
    if s != [] {
      assert (s + post)[1..] == s[1..] + post;
      if IsTrimmable(s[0]) {
        TrimStartAppend(s[1..], post);
      }
    } else {
      assert s + post == post;
    }
  }

  /** Leading and trailing white space does not matter to the normal form. */
  lemma {:induction false} NormalizeIgnoresOuterSpace(pre: string, s: string, post: string)
    requires AllTrimmable(pre) && AllTrimmable(post)
    ensures NormalizeEmail(pre + s + post) == NormalizeEmail(s)
  {
    var ls := ToLower(s);
    assert ToLower(pre + s + post) == pre + ls + post;
    assert pre + ls + post == pre + (ls + post);
    TrimStartSkipsSpace(pre, ls + post);
    TrimStartAppend(ls, post);
    if TrimStart(ls) == [] {
      // TrimStart keeps no leading trimmable character, and `post` has only those
      assert TrimStart(post) == [];
    } else {
      TrimEndSkipsSpace(TrimStart(ls), post);
    }
  }

  // ---------------------------------------------------------------------
  // The entity object
  // ---------------------------------------------------------------------

  /** The property names of a user object. */
  const USER_KEYS: set<string> :=
    {"id", "email", "password", "firstName", "lastName", "isActive", "roles", "provider"}

  /** The user as a JavaScript object: property name to value. */
  function UserObject(u: UserRow): (o: map<string, JsValue>)
    ensures o.Keys == USER_KEYS
    ensures o["id"] == Num(u.id) && o["email"] == Str(u.email)
    ensures o["password"] == (if u.password.Some? then Str(u.password.value) else Null)
    ensures o["firstName"] == Str(u.firstName) && o["lastName"] == Str(u.lastName)
    ensures o["isActive"] == Bool(u.isActive) && o["roles"] == StrList(u.roles)
    ensures o["provider"] == ProviderValue(u.provider)
  {
    map[
      "id" := Num(u.id),
      "email" := Str(u.email),
      "password" := (if u.password.Some? then Str(u.password.value) else Null),
      "firstName" := Str(u.firstName),
      "lastName" := Str(u.lastName),
      "isActive" := Bool(u.isActive),
      "roles" := StrList(u.roles),
      "provider" := ProviderValue(u.provider)]
  }

  /** A `User` entity instance, whose listeners update it in place. */
  class User {
    var id: nat
    var email: string
    var password: Option<string>
    var firstName: string
    var lastName: string
    var isActive: bool
    var roles: seq<string>
    var provider: Provider

    /** A new record built from sign-up fields. The columns the caller does not
        set take their defaults: active, the single role 'user', and the EMAIL
        provider when none is given. The id stays 0 until the store assigns one. */
    constructor (email: string, password: Option<string>, firstName: string, lastName: string,
                 provider: Option<Provider>)
      ensures Row() == UserRow(0, email, password, firstName, lastName, true, [ROLE_USER],
                               if provider.Some? then provider.value else EMAIL)
    {
      this.id := 0;
      this.email := email;
      this.password := password;
      this.firstName := firstName;
      this.lastName := lastName;
      this.isActive := true;
      this.roles := [ROLE_USER];
      this.provider := if provider.Some? then provider.value else EMAIL;
    }

    function Row(): UserRow
      reads this
    {
      UserRow(id, email, password, firstName, lastName, isActive, roles, provider)
    }

    /** `@BeforeInsert`: lower-cases and trims the e-mail; nothing else changes. */
    method VerifyEmail()
      modifies this
      ensures Row() == old(Row()).(email := NormalizeEmail(old(email)))
    {
      email := NormalizeEmail(email);
    }

    /** `@BeforeUpdate`: the same normalisation as before an insert. */
    method VerifyEmailOnUpdate()
      modifies this
      ensures Row() == old(Row()).(email := NormalizeEmail(old(email)))
    {
      VerifyEmail();
    }
  }
}
