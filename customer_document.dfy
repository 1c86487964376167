/**
 * The instance methods of a customer document: the two public projections
 * (`transform`, `transformBalance`), the session token payload (`token`)
 * and the password check (`passwordMatches`).
 */
module CustomerDocument {
  import opened CustomerSchema

  /** The fields `transformBalance` copies, in its order. */
  const BalanceFields: seq<Field> :=
    [IdField, AccountNumberField, NameField, EmailField, RoleField, BalanceField, CreatedAtField]

  /** The fields `transform` copies, in its order. */
  const ProfileFields: seq<Field> :=
    [IdField, AccountNumberField, NameField, EmailField, RoleField, CreatedAtField]

  /** The loop both projections run: start from an empty object and copy
      `doc[field]` for each listed field. */
  method Pick(c: Customer, fields: seq<Field>) returns (out: map<Field, Value>)
    ensures out.Keys == set f | f in fields
    ensures forall f :: f in out ==> out[f] == ValueOf(c, f)
  {
    out := map[];
    for i := 0 to |fields|
      invariant out.Keys == set f | f in fields[..i]
      invariant forall f :: f in out ==> out[f] == ValueOf(c, f)
    {
      assert fields[..i + 1] == fields[..i] + [fields[i]];
      out := out[fields[i] := ValueOf(c, fields[i])];
    }
  }

  /** `transformBalance`: the profile together with the balance, and never
      the password digest. */
  method TransformBalance(c: Customer) returns (out: map<Field, Value>)
    ensures out.Keys == {IdField, AccountNumberField, NameField, EmailField, RoleField, BalanceField, CreatedAtField}
    ensures PasswordField !in out
    ensures forall f :: f in out ==> out[f] == ValueOf(c, f)
  {
    out := Pick(c, BalanceFields);
    assert BalanceFields[5] == BalanceField;
  }

  /** `transform`: the public profile; neither the balance nor the password
      digest is in it. */
  method Transform(c: Customer) returns (out: map<Field, Value>)
    ensures out.Keys == {IdField, AccountNumberField, NameField, EmailField, RoleField, CreatedAtField}
    ensures PasswordField !in out && BalanceField !in out
    ensures forall f :: f in out ==> out[f] == ValueOf(c, f)
  {
    out := Pick(c, ProfileFields);
    assert ProfileFields[5] == CreatedAtField;
  }

  /** The claims of a session token, before it is signed. Times are Unix
      seconds. */
  datatype TokenPayload = TokenPayload(exp: int, iat: int, sub: string)

  const SecondsPerMinute := 60

  /** `token`: the subject is the customer's id, the token is issued at
      `now` and expires `intervalMinutes` minutes later. */
  function Token(c: Customer, now: int, intervalMinutes: int): (t: TokenPayload)
    ensures t.sub == c.id && t.iat == now
    ensures t.exp - t.iat == intervalMinutes * SecondsPerMinute
  {
    TokenPayload(now + intervalMinutes * SecondsPerMinute, now, c.id)
  }

  /** The subject a token names at time `at`, or nothing once it expired:
      the meaning of the `exp` claim, valid up to and including `exp`. */
  function Subject(t: TokenPayload, at: int): Option<string> {
    if at <= t.exp then Some(t.sub) else None
  }

  /** A token names its customer until the configured interval after it was
      issued, and nothing afterwards; the payload has no `nbf` claim, so it
      also names the customer before it was issued. */
  lemma TokenLifetime(c: Customer, now: int, intervalMinutes: int, at: int)
    ensures Subject(Token(c, now, intervalMinutes), at) ==
              (if at <= now + intervalMinutes * SecondsPerMinute then Some(c.id) else None)
  {
  }

  /** `passwordMatches`: the digest of the candidate equals the stored
      digest. */
  predicate PasswordMatches(hash: string -> string, password: string, stored: string) {
    hash(password) == stored
  }

  /** A stored digest accepts the password it was computed from and, for a
      one-to-one hash, no other. */
  lemma MatchesExactlyOwnPassword(hash: string -> string, p: string, q: string)
    requires forall x, y :: hash(x) == hash(y) ==> x == y
    ensures PasswordMatches(hash, p, hash(p))
    ensures PasswordMatches(hash, q, hash(p)) <==> q == p
  {
  }
}
