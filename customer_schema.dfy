/**
 * The `Customer` schema: the stored record, the input a create or a save
 * receives, the setters applied to that input (trim, lowercase, defaults)
 * and the validators (required, minlength, maxlength, enum, min).
 */
module CustomerSchema {
  import opened Text

  datatype Option<T> = None | Some(value: T)

  datatype Role = CustomerRole | AdminRole

  /** The `roles` list of the schema, in its declared order. */
  const Roles: seq<string> := ["customer", "admin"]

  const PasswordMinLength := 6
  const PasswordMaxLength := 128
  const NameMaxLength := 128
  const DefaultRole := CustomerRole
  const DefaultBalance: real := 0.0

  function RoleName(r: Role): string {
    match r
    case CustomerRole => "customer"
    case AdminRole => "admin"
  }

  /** The enum validator: only the exact strings of `Roles` name a role. */
  function ParseRole(s: string): (r: Option<Role>)
    ensures r.Some? <==> s in Roles
    ensures r.Some? ==> RoleName(r.value) == s
  {
    if s == "customer" then Some(CustomerRole)
    else if s == "admin" then Some(AdminRole)
    else None
  }

  lemma ParseRoleName(r: Role)
    ensures ParseRole(RoleName(r)) == Some(r)
  {
  }

  /** The fields a caller hands to create or sets on a document before a
      save; `None` is a field that was left out (create) or not set (save). */
  datatype Fields = Fields(
    email: Option<string>,
    password: Option<string>,
    name: Option<string>,
    role: Option<string>,
    balance: Option<real>)

  /** A schema path that a validation error can name. */
  datatype Path = EmailPath | PasswordPath | NamePath | RolePath | BalancePath

  /** A stored customer. `password` holds the digest, never the plaintext. */
  datatype Customer = Customer(
    id: string,
    accountNumber: int,
    email: string,
    password: string,
    name: Option<string>,
    role: Role,
    balance: real,
    createdAt: int)

  datatype Error =
    | ValidationFailed(paths: set<Path>)
    | DuplicateKey
    | NotFound
    | EmailRequired
    | Unauthorized

  datatype Result<T> = Ok(value: T) | Err(error: Error)

  const AllPaths: set<Path> := {EmailPath, PasswordPath, NamePath, RolePath, BalancePath}

  /** Whether the validators of path `p` reject `d`. */
  predicate Fails(d: Fields, isNew: bool, p: Path) {
    match p
    case EmailPath => if d.email.None? then isNew else NormalEmail(d.email.value) == []
    case PasswordPath =>
      if d.password.None? then isNew
      else |d.password.value| < PasswordMinLength || |d.password.value| > PasswordMaxLength
    case NamePath => d.name.Some? && |Trim(d.name.value)| > NameMaxLength
    case RolePath => d.role.Some? && ParseRole(d.role.value).None?
    case BalancePath => d.balance.Some? && d.balance.value < 0.0
  }

  /** Every validator accepts `d`. */
  predicate Accepted(d: Fields, isNew: bool) {
    && !Fails(d, isNew, EmailPath) && !Fails(d, isNew, PasswordPath) && !Fails(d, isNew, NamePath)
    && !Fails(d, isNew, RolePath) && !Fails(d, isNew, BalancePath)
  }

  /** The set of paths whose validator rejects `d`. */
  function Violations(d: Fields, isNew: bool): (bad: set<Path>)
    ensures EmailPath in bad <==> Fails(d, isNew, EmailPath)
    ensures PasswordPath in bad <==> Fails(d, isNew, PasswordPath)
    ensures NamePath in bad <==> Fails(d, isNew, NamePath)
    ensures RolePath in bad <==> Fails(d, isNew, RolePath)
    ensures BalancePath in bad <==> Fails(d, isNew, BalancePath)
    ensures bad == {} <==> Accepted(d, isNew)
  {
    set p | p in AllPaths && Fails(d, isNew, p)
  }

  /** What each validator rejects. On a new document the required paths
      (email, password) must be present; on a save a path that was not set
      is not checked. Lengths are checked after the setters ran, so an email
      of white space only is missing. */
  lemma ViolationsMeaning(d: Fields, isNew: bool)
    ensures EmailPath in Violations(d, isNew) <==>
              (if d.email.None? then isNew else AllSpace(d.email.value))
    ensures PasswordPath in Violations(d, isNew) <==>
              (if d.password.None? then isNew
               else !(PasswordMinLength <= |d.password.value| <= PasswordMaxLength))
    ensures NamePath in Violations(d, isNew) <==> d.name.Some? && |Trim(d.name.value)| > NameMaxLength
    ensures RolePath in Violations(d, isNew) <==> d.role.Some? && d.role.value !in Roles
    ensures BalancePath in Violations(d, isNew) <==> d.balance.Some? && d.balance.value < 0.0
  {
    if d.email.Some? {
      NormalEmailEmpty(d.email.value);
    }
  }

  /** What every stored record satisfies, stated without the setters: the
      email is non-empty, has no white space at its ends and no upper-case
      letter; the name has no white space at its ends and is at most 128
      characters; the balance is not negative. */
  predicate WellFormed(c: Customer) {
    && c.email != [] && IsTrimmed(c.email) && IsLower(c.email)
    && (c.name.Some? ==> IsTrimmed(c.name.value) && |c.name.value| <= NameMaxLength)
    && c.balance >= 0.0
  }

  function TrimmedName(name: Option<string>): (r: Option<string>)
    ensures r.Some? <==> name.Some?
    ensures r.Some? ==> IsTrimmed(r.value)
  {
    match name
    case None => None
    case Some(n) => TrimIsCore(n); Some(Trim(n))
  }

  /** The document `create` builds from valid input: setters applied,
      defaults filled in, `digest` in place of the password. */
  function NewCustomer(d: Fields, id: string, accountNumber: int, digest: string, now: int): (c: Customer)
    requires Accepted(d, true)
    ensures WellFormed(c)
    ensures c.id == id && c.accountNumber == accountNumber && c.password == digest && c.createdAt == now
    ensures c.email == NormalEmail(d.email.value)
    ensures c.name == TrimmedName(d.name)
    ensures c.role == (if d.role.None? then DefaultRole else ParseRole(d.role.value).value)
    ensures c.balance == (if d.balance.None? then DefaultBalance else d.balance.value)
  {
    NormalEmailShape(d.email.value);
    NormalEmailEmpty(d.email.value);
    Customer(id, accountNumber, NormalEmail(d.email.value), digest, TrimmedName(d.name),
             if d.role.None? then DefaultRole else ParseRole(d.role.value).value,
             if d.balance.None? then DefaultBalance else d.balance.value,
             now)
  }

  /** The document after a save that set the paths of `d` and stored
      `digest` as the password; the id, the account number and the
      creation time never change. */
  function Updated(c: Customer, d: Fields, digest: string): (u: Customer)
    requires WellFormed(c)
    requires Accepted(d, false)
    ensures WellFormed(u)
    ensures u.id == c.id && u.accountNumber == c.accountNumber && u.createdAt == c.createdAt
    ensures u.password == digest
    ensures u.email == (if d.email.None? then c.email else NormalEmail(d.email.value))
    ensures u.name == (if d.name.None? then c.name else TrimmedName(d.name))
    ensures u.role == (if d.role.None? then c.role else ParseRole(d.role.value).value)
    ensures u.balance == (if d.balance.None? then c.balance else d.balance.value)
  {
    var email := if d.email.None? then c.email else NormalEmail(d.email.value);
    assert d.email.Some? ==> IsTrimmed(email) && IsLower(email) && email != [] by {
      if d.email.Some? {
        NormalEmailShape(d.email.value);
      }
    }
    Customer(c.id, c.accountNumber,
             email,
             digest,
             if d.name.None? then c.name else TrimmedName(d.name),
             if d.role.None? then c.role else ParseRole(d.role.value).value,
             if d.balance.None? then c.balance else d.balance.value,
             c.createdAt)
  }

  /** The setters leave a stored record's email as it is. */
  lemma StoredEmailIsNormal(c: Customer)
    requires WellFormed(c)
    ensures NormalEmail(c.email) == c.email
  {
    NormalEmailOfNormal(c.email);
  }

  /** The setters leave a stored record's name as it is. */
  lemma StoredNameIsNormal(c: Customer)
    requires WellFormed(c)
    ensures TrimmedName(c.name) == c.name
  {
    if c.name.Some? {
      TrimmedIsFixed(c.name.value);
    }
  }

  /** A stored record's own values pass every validator: setting them again
      on a save is accepted. */
  lemma StoredValuesRevalidate(c: Customer)
    requires WellFormed(c)
    ensures Accepted(Fields(Some(c.email), None, c.name, Some(RoleName(c.role)), Some(c.balance)), false)
  {
    var d := Fields(Some(c.email), None, c.name, Some(RoleName(c.role)), Some(c.balance));
    assert !Fails(d, false, EmailPath) by {
      StoredEmailIsNormal(c);
    }
    assert !Fails(d, false, NamePath) by {
      StoredNameIsNormal(c);
    }
    assert !Fails(d, false, RolePath) by {
      ParseRoleName(c.role);
    }
    assert Accepted(d, false);
  }

  /** The two boundary cases of the password length check. */
  lemma PasswordLengthBoundary(p5: string, p6: string)
    requires |p5| == 5 && |p6| == 6
    ensures PasswordPath in Violations(Fields(Some("a@b.c"), Some(p5), None, None, None), true)
    ensures Violations(Fields(Some("a@b.c"), Some(p6), None, None, None), true) == {}
  {
    var e := "a@b.c";
    assert !IsSpace(e[0]);
  }

  /** A schema field as the document getters see it, for projections and
      for query filters. */
  datatype Field =
    | IdField | AccountNumberField | NameField | EmailField | RoleField
    | BalanceField | CreatedAtField | PasswordField

  /** A JavaScript value as a document field holds it. */
  datatype Value = Undefined | Str(s: string) | Int(i: int) | Num(r: real)

  /** `doc[field]`: the value the document's getter returns. */
  function ValueOf(c: Customer, f: Field): Value {
    match f
    case IdField => Str(c.id)
    case AccountNumberField => Int(c.accountNumber)
    case NameField => if c.name.Some? then Str(c.name.value) else Undefined
    case EmailField => Str(c.email)
    case RoleField => Str(RoleName(c.role))
    case BalanceField => Num(c.balance)
    case CreatedAtField => Int(c.createdAt)
    case PasswordField => Str(c.password)
  }
}
