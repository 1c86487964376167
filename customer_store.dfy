/**
 * The `Customer` model: the collection of customer documents, the
 * auto-increment counter behind `accountNumber`, and the statics that read
 * and write them (`create` with its pre-save hook, a save of an existing
 * document, `get`, `getMasterAccount`, `findAndGenerateToken`, `list`).
 */
module CustomerStore {
  import opened Text
  import opened CustomerSchema
  import opened CustomerDocument
  import opened Query

  /** The auto-increment plugin's settings for `accountNumber`. */
  const StartAt := 1001
  const IncrementBy := 1

  const MasterName := "Master Account"
  const MasterEmail := "master_account@bank.com"

  /** What a successful login returns: the customer and its token. */
  datatype Session = Session(customer: Customer, accessToken: TokenPayload)

  /** The data `getMasterAccount` creates the master account from (its
      account number is passed to `create` beside it). */
  function MasterFields(password: string): Fields {
    Fields(Some(MasterEmail), Some(password), Some(MasterName), Some("admin"), None)
  }

  function ById(id: string): Filter { map[IdField := Str(id)] }
  function ByEmail(email: string): Filter { map[EmailField := Str(email)] }
  function ByAccountNumber(n: int): Filter { map[AccountNumberField := Int(n)] }

  predicate EmailIn(s: seq<Customer>, email: string) {
    exists i :: 0 <= i < |s| && s[i].email == email
  }

  predicate IdIn(s: seq<Customer>, id: string) {
    exists i :: 0 <= i < |s| && s[i].id == id
  }

  /** Another document than the `k`-th already holds `email`. */
  predicate EmailHeldByOther(s: seq<Customer>, email: string, k: int) {
    exists j :: 0 <= j < |s| && j != k && s[j].email == email
  }

  /** The position of the document with the given id, or -1. */
  function IndexOf(s: seq<Customer>, id: string): (k: int)
    ensures -1 <= k < |s|
    ensures k >= 0 ==> s[k].id == id && forall j :: 0 <= j < k ==> s[j].id != id
    ensures k < 0 <==> !IdIn(s, id)
  {
    IndexFrom(s, id, 0)
  }

  function IndexFrom(s: seq<Customer>, id: string, from: nat): (k: int)
    requires from <= |s|
    requires forall j :: 0 <= j < from ==> s[j].id != id
    ensures -1 <= k < |s|
    ensures k >= 0 ==> s[k].id == id && forall j :: 0 <= j < k ==> s[j].id != id
    ensures k < 0 ==> forall j :: 0 <= j < |s| ==> s[j].id != id
    decreases |s| - from
  {
    if from == |s| then -1
    else if s[from].id == id then from
    else IndexFrom(s, id, from + 1)
  }

  /** The paths a save really modifies: a password set to the value already
      stored is not modified (mongoose compares the new value with the old
      one), so it is neither validated nor hashed again. */
  function Modified(d: Fields, c: Customer): (e: Fields)
    ensures e.password.Some? <==> d.password.Some? && d.password.value != c.password
  {
    d.(password := if d.password.Some? && d.password.value != c.password then d.password else None)
  }

  /** The email index lookup matches exactly the documents holding the
      normalised email. */
  lemma MatchesByEmail(c: Customer, email: string)
    ensures Matches(c, ByEmail(email)) <==> c.email == NormalEmail(email)
  {
    assert ByEmail(email)[EmailField] == Str(email);
  }

  lemma MatchesByAccountNumber(c: Customer, n: int)
    ensures Matches(c, ByAccountNumber(n)) <==> c.accountNumber == n
  {
    assert ByAccountNumber(n)[AccountNumberField] == Int(n);
  }

  lemma MatchesById(c: Customer, id: string)
    ensures Matches(c, ById(id)) <==> c.id == id
  {
    assert ById(id)[IdField] == Str(id);
  }

  lemma MasterEmailIsNormal()
    ensures NormalEmail(MasterEmail) == MasterEmail
  {
    var e := MasterEmail;
    assert !IsSpace(e[0]) && !IsSpace(e[|e| - 1]);
    NormalEmailOfNormal(e);
  }

  /** Appending a document the filter rejects changes no query result;
      appending one it accepts adds it at the end of `find` and leaves an
      existing `findOne` result in place. */
  lemma {:induction false} FindAppend(s: seq<Customer>, c: Customer, q: Filter)
    ensures Find(s + [c], q) == Find(s, q) + (if Matches(c, q) then [c] else [])
  {
    if s == [] {
      assert s + [c] == [c];
      assert [c][1..] == [];
    } else {
      var t := s + [c];
      assert t[0] == s[0];
      assert t[1..] == s[1..] + [c];
      FindAppend(s[1..], c, q);
      var head := if Matches(s[0], q) then [s[0]] else [];
      var tail := if Matches(c, q) then [c] else [];
      assert Find(t, q) == head + (Find(s[1..], q) + tail);
      assert head + (Find(s[1..], q) + tail) == (head + Find(s[1..], q)) + tail;
    }
  }

  lemma FindOneAppend(s: seq<Customer>, c: Customer, q: Filter)
    ensures FindOne(s + [c], q) == if FindOne(s, q).Some? then FindOne(s, q)
                                   else if Matches(c, q) then Some(c) else None
  {
    FindOneIsFirstOfFind(s, q);
    FindOneIsFirstOfFind(s + [c], q);
    FindAppend(s, c, q);
  }

  /** The lookup by `_id` finds a document exactly when one holds the id. */
  lemma FindById(s: seq<Customer>, id: string)
    ensures FindOne(s, ById(id)).Some? <==> IdIn(s, id)
    ensures FindOne(s, ById(id)).Some? ==> FindOne(s, ById(id)).value.id == id
  {
    forall i | 0 <= i < |s| ensures Matches(s[i], ById(id)) <==> s[i].id == id {
      MatchesById(s[i], id);
    }
    if FindOne(s, ById(id)).Some? {
      MatchesById(FindOne(s, ById(id)).value, id);
    }
  }

  /** What the collection and the counter keep between operations: every
      stored record is well formed; emails and ids are unique (the two
      unique indexes); every id the counter numbered is stored, and the
      numbers the counter issued lie in [StartAt, next) and are pairwise
      distinct. */
  ghost predicate Inv(s: seq<Customer>, next: int, auto: set<string>) {
    && next >= StartAt
    && (forall i :: 0 <= i < |s| ==> WellFormed(s[i]))
    && (forall i, j :: 0 <= i < j < |s| ==> s[i].email != s[j].email && s[i].id != s[j].id)
    && (forall id :: id in auto ==> IdIn(s, id))
    && (forall i :: 0 <= i < |s| && s[i].id in auto ==> StartAt <= s[i].accountNumber < next)
    && (forall i, j :: 0 <= i < j < |s| && s[i].id in auto && s[j].id in auto
          ==> s[i].accountNumber != s[j].accountNumber)
  }

  /** Inserting a well-formed document whose email and id are both new
      keeps the invariant; a document numbered by the counter takes the
      counter's value and advances it. */
  lemma AppendKeepsInv(s: seq<Customer>, next: int, auto: set<string>, c: Customer, counted: bool)
    requires Inv(s, next, auto)
    requires WellFormed(c) && !EmailIn(s, c.email) && !IdIn(s, c.id)
    requires counted ==> c.accountNumber == next
    ensures Inv(s + [c], if counted then next + IncrementBy else next, if counted then auto + {c.id} else auto)
  {
    var t := s + [c];
    var next' := if counted then next + IncrementBy else next;
    var auto' := if counted then auto + {c.id} else auto;
    assert forall i :: 0 <= i < |s| ==> t[i] == s[i];
    assert t[|s|] == c;
    assert c.id !in auto;
    forall id | id in auto' ensures IdIn(t, id) {
      if id != c.id {
        var i :| 0 <= i < |s| && s[i].id == id;
        assert t[i].id == id;
      }
    }
  }

  /** Replacing the `k`-th document by a well-formed one with the same id
      and account number keeps the invariant, when no other document holds
      its email. */
  lemma UpdateKeepsInv(s: seq<Customer>, next: int, auto: set<string>, k: int, u: Customer)
    requires Inv(s, next, auto) && 0 <= k < |s|
    requires WellFormed(u) && u.id == s[k].id && u.accountNumber == s[k].accountNumber
    requires !EmailHeldByOther(s, u.email, k)
    ensures Inv(s[k := u], next, auto)
  {
    var t := s[k := u];
    forall id | id in auto ensures IdIn(t, id) {
      var i :| 0 <= i < |s| && s[i].id == id;
      assert t[i].id == id;
    }
  }

  /** The document `getMasterAccount` creates: the master email and name,
      the admin role, a zero balance. */
  lemma MasterCustomer(password: string, id: string, n: int, digest: string, now: int)
    requires Accepted(MasterFields(password), true)
    ensures NewCustomer(MasterFields(password), id, n, digest, now)
            == Customer(id, n, MasterEmail, digest, Some(MasterName), AdminRole, DefaultBalance, now)
  {
    MasterEmailIsNormal();
    var m := MasterName;
    assert !IsSpace(m[0]) && !IsSpace(m[|m| - 1]);
    TrimmedIsFixed(m);
  }

  /** Whether the master account's input passes validation depends only on
      the configured password's length. */
  lemma MasterFieldsAccepted(password: string)
    ensures Accepted(MasterFields(password), true) <==>
              PasswordMinLength <= |password| <= PasswordMaxLength
  {
    MasterEmailIsNormal();
    var m := MasterName;
    assert !IsSpace(m[0]) && !IsSpace(m[|m| - 1]);
    TrimmedIsFixed(m);
  }

  /** A master input with a password of the wrong length fails on the
      password path alone. */
  lemma MasterViolations(password: string)
    requires !(PasswordMinLength <= |password| <= PasswordMaxLength)
    ensures Violations(MasterFields(password), true) == {PasswordPath}
  {
    MasterEmailIsNormal();
    var m := MasterName;
    assert !IsSpace(m[0]) && !IsSpace(m[|m| - 1]);
    TrimmedIsFixed(m);
    var bad := Violations(MasterFields(password), true);
    assert !Fails(MasterFields(password), true, EmailPath);
    assert !Fails(MasterFields(password), true, NamePath);
    assert forall p :: p in bad <==> p == PasswordPath by {
      forall p ensures p in bad <==> p == PasswordPath {
        match p
        case EmailPath =>
        case PasswordPath =>
        case NamePath =>
        case RolePath =>
        case BalancePath =>
      }
    }
  }

  class Customers {
    /** `bcrypt.hash`, seen as a function of the plaintext. */
    const hash: string -> string
    /** `mongoose.Types.ObjectId.isValid`. */
    const isValidObjectId: string -> bool
    /** Configuration: token lifetime in minutes, the master account's
        number and password. */
    const jwtExpirationInterval: int
    const masterAccount: int
    const masterAccountPassword: string

    /** The collection, in insertion order. */
    var customers: seq<Customer>
    /** The next number the auto-increment counter hands out. */
    var nextAccountNumber: int
    /** The ids of the documents whose account number the counter issued. */
    ghost var autoNumbered: set<string>

    ghost predicate Valid()
      reads this
    {
      Inv(customers, nextAccountNumber, autoNumbered)
    }

    constructor (hash: string -> string, isValidObjectId: string -> bool,
                 jwtExpirationInterval: int, masterAccount: int, masterAccountPassword: string)
      ensures Valid()
      ensures customers == [] && nextAccountNumber == StartAt && autoNumbered == {}
      ensures this.hash == hash && this.isValidObjectId == isValidObjectId
      ensures this.jwtExpirationInterval == jwtExpirationInterval
      ensures this.masterAccount == masterAccount && this.masterAccountPassword == masterAccountPassword
    {
      this.hash := hash;
      this.isValidObjectId := isValidObjectId;
      this.jwtExpirationInterval := jwtExpirationInterval;
      this.masterAccount := masterAccount;
      this.masterAccountPassword := masterAccountPassword;
      customers := [];
      nextAccountNumber := StartAt;
      autoNumbered := {};
    }

    /** `create`: validate, take an account number (the one given, or the
        counter's next), hash the password in the pre-save hook, insert
        under the unique indexes on `_id` and `email`. */
    method Create(d: Fields, accountNumber: Option<int>, id: string, now: int) returns (r: Result<Customer>)
      requires Valid()
      requires isValidObjectId(id)
      modifies this
      ensures Valid()
      ensures !Accepted(d, true) ==> r == Err(ValidationFailed(Violations(d, true)))
      ensures Accepted(d, true) ==>
                (r.Err? <==> EmailIn(old(customers), NormalEmail(d.email.value)) || IdIn(old(customers), id))
      ensures Accepted(d, true) && r.Err? ==> r.error == DuplicateKey
      ensures r.Err? ==> customers == old(customers) && nextAccountNumber == old(nextAccountNumber)
      ensures r.Ok? ==>
                && Accepted(d, true)
                && customers == old(customers) + [r.value]
                && r.value == NewCustomer(d, id,
                                          if accountNumber.Some? then accountNumber.value else old(nextAccountNumber),
                                          hash(d.password.value), now)
      ensures nextAccountNumber ==
                if r.Ok? && accountNumber.None? then old(nextAccountNumber) + IncrementBy
                else old(nextAccountNumber)
      ensures autoNumbered ==
                if r.Ok? && accountNumber.None? then old(autoNumbered) + {id} else old(autoNumbered)
      ensures r.Ok? ==> Get(id) == Ok(r.value)
    {
      var bad := Violations(d, true);
      if bad != {} {
        return Err(ValidationFailed(bad));
      }
      var email := NormalEmail(d.email.value);
      if EmailIn(customers, email) || IdIn(customers, id) {
        return Err(DuplicateKey);
      }
      var number := if accountNumber.Some? then accountNumber.value else nextAccountNumber;
      // The pre-save hook: the password of a new document is modified.
      var c := NewCustomer(d, id, number, hash(d.password.value), now);
      AppendKeepsInv(customers, nextAccountNumber, autoNumbered, c, accountNumber.None?);
      FindById(customers, id);
      MatchesById(c, id);
      FindOneAppend(customers, c, ById(id));
      customers := customers + [c];
      if accountNumber.None? {
        autoNumbered := autoNumbered + {id};
        nextAccountNumber := nextAccountNumber + IncrementBy;
      }
      r := Ok(c);
    }

    /** Saving the document with id `id` after setting the paths of `d`:
        the modified paths are validated (stored values always pass again,
        see StoredValuesRevalidate), and the pre-save hook replaces the
        password by its digest only when the password was modified. */
    method Save(id: string, d: Fields) returns (r: Result<Customer>)
      requires Valid()
      modifies this`customers
      ensures Valid()
      ensures !IdIn(old(customers), id) ==> r == Err(NotFound)
      ensures var k := IndexOf(old(customers), id);
              k >= 0 ==>
                var c := old(customers)[k];
                var e := Modified(d, c);
                && (!Accepted(e, false) ==> r == Err(ValidationFailed(Violations(e, false))))
                && (Accepted(e, false) ==>
                      (r.Err? <==> e.email.Some? && EmailHeldByOther(old(customers), NormalEmail(e.email.value), k)))
                && (Accepted(e, false) && r.Err? ==> r.error == DuplicateKey)
                && (r.Ok? ==> Accepted(e, false) && customers == old(customers)[k := r.value]
                              && r.value == Updated(c, e, if e.password.Some? then hash(e.password.value) else c.password))
      ensures r.Err? ==> customers == old(customers)
      ensures r.Ok? ==> IdIn(old(customers), id)
      ensures r.Ok? ==>
                var stored := old(customers)[IndexOf(old(customers), id)].password;
                && (d.password.None? || d.password.value == stored ==> r.value.password == stored)
                && (d.password.Some? && d.password.value != stored ==> r.value.password == hash(d.password.value))
    {
      var k := IndexOf(customers, id);
      if k < 0 {
        return Err(NotFound);
      }
      var c := customers[k];
      var e := Modified(d, c);
      var bad := Violations(e, false);
      if bad != {} {
        return Err(ValidationFailed(bad));
      }
      if e.email.Some? && EmailHeldByOther(customers, NormalEmail(e.email.value), k) {
        return Err(DuplicateKey);
      }
      // The pre-save hook.
      var digest := c.password;
      if e.password.Some? {
        digest := hash(e.password.value);
      }
      var u := Updated(c, e, digest);
      UpdateKeepsInv(customers, nextAccountNumber, autoNumbered, k, u);
      customers := customers[k := u];
      r := Ok(u);
    }

    /** `get`: the customer with a well-formed id, or NOT_FOUND. */
    function Get(id: string): (r: Result<Customer>)
      reads this
      ensures r.Ok? <==> isValidObjectId(id) && IdIn(customers, id)
      ensures r.Ok? ==> r.value in customers && r.value.id == id
      ensures r.Err? ==> r.error == NotFound
    {
      if !isValidObjectId(id) then Err(NotFound)
      else
        FindById(customers, id);
        var found := FindOne(customers, ById(id));
        if found.Some? then Ok(found.value) else Err(NotFound)
    }

    /** `getMasterAccount`: the customer holding the master account number
        if there is one, otherwise a newly created admin with that number. */
    method GetMasterAccount(id: string, now: int) returns (r: Result<Customer>)
      requires Valid()
      requires isValidObjectId(id)
      modifies this
      ensures Valid()
      ensures nextAccountNumber == old(nextAccountNumber) && autoNumbered == old(autoNumbered)
      ensures FindOne(old(customers), ByAccountNumber(masterAccount)).Some? ==>
                && r == Ok(FindOne(old(customers), ByAccountNumber(masterAccount)).value)
                && customers == old(customers)
      ensures FindOne(old(customers), ByAccountNumber(masterAccount)).None? ==>
                && (r.Err? <==> !(PasswordMinLength <= |masterAccountPassword| <= PasswordMaxLength)
                                || EmailIn(old(customers), MasterEmail) || IdIn(old(customers), id))
                && (r.Err? ==> customers == old(customers))
                && (r.Err? ==> r.error == if PasswordMinLength <= |masterAccountPassword| <= PasswordMaxLength
                                           then DuplicateKey else ValidationFailed({PasswordPath}))
                && (r.Ok? ==>
                      && customers == old(customers) + [r.value]
                      && r.value == Customer(id, masterAccount, MasterEmail, hash(masterAccountPassword),
                                             Some(MasterName), AdminRole, DefaultBalance, now)
                      && |Find(customers, ByAccountNumber(masterAccount))| == 1)
      ensures r.Ok? ==> r.value.accountNumber == masterAccount
      ensures r.Ok? ==> FindOne(customers, ByAccountNumber(masterAccount)) == Some(r.value)
    {
      var q := ByAccountNumber(masterAccount);
      var found := FindOne(customers, q);
      if found.Some? {
        MatchesByAccountNumber(found.value, masterAccount);
        return Ok(found.value);
      }
      ghost var before := customers;
      MasterEmailIsNormal();
      MasterFieldsAccepted(masterAccountPassword);
      if !(PasswordMinLength <= |masterAccountPassword| <= PasswordMaxLength) {
        MasterViolations(masterAccountPassword);
      }
      r := Create(MasterFields(masterAccountPassword), Some(masterAccount), id, now);
      if r.Ok? {
        MasterCustomer(masterAccountPassword, id, masterAccount, hash(masterAccountPassword), now);
        MatchesByAccountNumber(r.value, masterAccount);
        FindOneAppend(before, r.value, q);
        FindAppend(before, r.value, q);
        FindOneIsFirstOfFind(before, q);
      }
    }

    /** `findAndGenerateToken`: a missing email is refused outright; a
        customer whose password matches gets a token; every other case
        (no password, unknown email, wrong password) is the same
        UNAUTHORIZED error. */
    function FindAndGenerateToken(email: Option<string>, password: Option<string>, now: int): (r: Result<Session>)
      reads this
      requires Valid()
      ensures r == Err(EmailRequired) <==> email.None? || email.value == []
      ensures r.Err? ==> r.error == EmailRequired || r.error == Unauthorized
      ensures r.Ok? <==>
                && email.Some? && email.value != [] && password.Some? && password.value != []
                && exists i :: 0 <= i < |customers| && customers[i].email == NormalEmail(email.value)
                                && PasswordMatches(hash, password.value, customers[i].password)
      ensures r.Ok? ==>
                && r.value.customer in customers
                && r.value.customer.email == NormalEmail(email.value)
                && r.value.accessToken == Token(r.value.customer, now, jwtExpirationInterval)
    {
      if email.None? || email.value == [] then Err(EmailRequired)
      else
        var customer := FindOne(customers, ByEmail(email.value));
        FindByEmailIsTheHolder(email.value);
        if password.Some? && password.value != [] && customer.Some?
           && PasswordMatches(hash, password.value, customer.value.password)
        then Ok(Session(customer.value, Token(customer.value, now, jwtExpirationInterval)))
        else Err(Unauthorized)
    }

    /** With unique emails, the email lookup finds the one customer holding
        the normalised email, and nothing when nobody holds it. */
    lemma FindByEmailIsTheHolder(email: string)
      requires Valid()
      ensures FindOne(customers, ByEmail(email)).Some? <==> EmailIn(customers, NormalEmail(email))
      ensures forall i :: 0 <= i < |customers| && customers[i].email == NormalEmail(email) ==>
                FindOne(customers, ByEmail(email)) == Some(customers[i])
    {
      forall i | 0 <= i < |customers| ensures Matches(customers[i], ByEmail(email)) <==> customers[i].email == NormalEmail(email) {
        MatchesByEmail(customers[i], email);
      }
      forall i | 0 <= i < |customers| && customers[i].email == NormalEmail(email)
        ensures FindOne(customers, ByEmail(email)) == Some(customers[i])
      {
        FindOneUnique(customers, ByEmail(email), i);
      }
    }

    /** `list`: the customers whose name, email and role equal each value
        supplied, after the setters; a value left out constrains nothing.
        Pagination is not applied. */
    function List(name: Option<string>, email: Option<string>, role: Option<string>): (r: seq<Customer>)
      reads this
      ensures forall c :: c in r <==>
                && c in customers
                && (name.Some? ==> c.name == Some(Trim(name.value)))
                && (email.Some? ==> c.email == NormalEmail(email.value))
                && (role.Some? ==> RoleName(c.role) == role.value)
      ensures name.None? && email.None? && role.None? ==> r == customers
    {
      var q := ListFilter(name, email, role);
      assert forall c :: Matches(c, q) <==>
                && (name.Some? ==> c.name == Some(Trim(name.value)))
                && (email.Some? ==> c.email == NormalEmail(email.value))
                && (role.Some? ==> RoleName(c.role) == role.value) by {
        forall c ensures Matches(c, q) <==>
                && (name.Some? ==> c.name == Some(Trim(name.value)))
                && (email.Some? ==> c.email == NormalEmail(email.value))
                && (role.Some? ==> RoleName(c.role) == role.value) {
          ListFilterMatches(c, name, email, role);
        }
      }
      if name.None? && email.None? && role.None? then
        FindAllMatching(customers, q);
        Find(customers, q)
      else
        Find(customers, q)
    }
  }

  /** Calling `getMasterAccount` twice: the second call returns what the
      first returned and leaves the collection as the first left it. */
  method BootstrapTwice(store: Customers, id1: string, id2: string, now1: int, now2: int)
    returns (first: Result<Customer>, second: Result<Customer>, ghost between: seq<Customer>)
    requires store.Valid() && store.isValidObjectId(id1) && store.isValidObjectId(id2)
    modifies store
    ensures store.Valid()
    ensures first.Ok? ==> second == first && store.customers == between
    ensures first.Ok? && FindOne(old(store.customers), ByAccountNumber(store.masterAccount)).None? ==>
              between == old(store.customers) + [first.value]
              && |Find(store.customers, ByAccountNumber(store.masterAccount))| == 1
  {
    first := store.GetMasterAccount(id1, now1);
    between := store.customers;
    second := store.GetMasterAccount(id2, now2);
  }

  /** Two sign-ups numbered by the counter: the second takes the number
      after the first, both are at least StartAt, and they differ. */
  method TwoSignUps(store: Customers, d1: Fields, d2: Fields, id1: string, id2: string, now: int)
    returns (first: Result<Customer>, second: Result<Customer>)
    requires store.Valid() && store.isValidObjectId(id1) && store.isValidObjectId(id2)
    modifies store
    ensures store.Valid()
    ensures first.Ok? && second.Ok? ==>
              && first.value.accountNumber == old(store.nextAccountNumber)
              && second.value.accountNumber == first.value.accountNumber + IncrementBy
              && StartAt <= first.value.accountNumber < second.value.accountNumber
              && store.customers == old(store.customers) + [first.value, second.value]
              && store.autoNumbered == old(store.autoNumbered) + {first.value.id, second.value.id}
              && store.Get(first.value.id) == first && store.Get(second.value.id) == second
    ensures first.Err? && second.Err? ==> store.customers == old(store.customers)
  {
    first := store.Create(d1, None, id1, now);
    second := store.Create(d2, None, id2, now);
  }
}
