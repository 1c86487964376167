/**
 * Equality queries over the customer collection, as `find`, `findOne` and
 * `findById` run them: a filter maps schema fields to values; a document
 * matches when every listed field equals the filter's value after the
 * field's setters (trim, lowercase) were applied to it. Results keep the
 * collection's insertion order.
 */
module Query {
  import opened Text
  import opened CustomerSchema

  type Filter = map<Field, Value>

  /** Query casting: a string value for the email or the name goes through
      the same setters as a stored value. */
  function Cast(f: Field, v: Value): Value {
    if f == EmailField && v.Str? then Str(NormalEmail(v.s))
    else if f == NameField && v.Str? then Str(Trim(v.s))
    else v
  }

  predicate Matches(c: Customer, q: Filter) {
    forall f :: f in q ==> ValueOf(c, f) == Cast(f, q[f])
  }

  /** `find`: the documents of `s` that match `q`, in order. */
  function Find(s: seq<Customer>, q: Filter): (r: seq<Customer>)
    ensures |r| <= |s|
    ensures forall c :: c in r <==> c in s && Matches(c, q)
  {
    if s == [] then []
    else (if Matches(s[0], q) then [s[0]] else []) + Find(s[1..], q)
  }

  /** `findOne`: the first document of `s` that matches `q`, if any. */
  function FindOne(s: seq<Customer>, q: Filter): (r: Option<Customer>)
    ensures r.None? <==> forall i :: 0 <= i < |s| ==> !Matches(s[i], q)
    ensures r.Some? ==> r.value in s && Matches(r.value, q)
  {
    if s == [] then None
    else if Matches(s[0], q) then Some(s[0])
    else
      assert forall i :: 1 <= i < |s| ==> s[i] == s[1..][i - 1];
      FindOne(s[1..], q)
  }

  /** `findOne` is the first result of `find`. */
  lemma {:induction false} FindOneIsFirstOfFind(s: seq<Customer>, q: Filter)
    ensures FindOne(s, q) == if Find(s, q) == [] then None else Some(Find(s, q)[0])
  {
    if s != [] && !Matches(s[0], q) {
      FindOneIsFirstOfFind(s[1..], q);
    }
  }

  /** A filter that every document matches returns the whole collection,
      in its order. */
  lemma {:induction false} FindAllMatching(s: seq<Customer>, q: Filter)
    requires forall i :: 0 <= i < |s| ==> Matches(s[i], q)
    ensures Find(s, q) == s
  {
    if s != [] {
      assert forall i :: 0 <= i < |s[1..]| ==> Matches(s[1..][i], q) by {
        forall i | 0 <= i < |s[1..]| ensures Matches(s[1..][i], q) {
          assert s[1..][i] == s[i + 1];
        }
      }
      FindAllMatching(s[1..], q);
    }
  }

  /** With unique values of a field, a point query on that field finds the
      one document holding the value. */
  lemma FindOneUnique(s: seq<Customer>, q: Filter, k: nat)
    requires k < |s| && Matches(s[k], q)
    requires forall i :: 0 <= i < |s| && i != k ==> !Matches(s[i], q)
    ensures FindOne(s, q) == Some(s[k])
  {
  }

  /** The filter `list` builds with `omitBy(..., isNil)`: only the fields
      that were supplied. */
  function ListFilter(name: Option<string>, email: Option<string>, role: Option<string>): (q: Filter)
    ensures forall f :: f in q ==> f == NameField || f == EmailField || f == RoleField
    ensures NameField in q <==> name.Some?
    ensures EmailField in q <==> email.Some?
    ensures RoleField in q <==> role.Some?
    ensures NameField in q ==> q[NameField] == Str(name.value)
    ensures EmailField in q ==> q[EmailField] == Str(email.value)
    ensures RoleField in q ==> q[RoleField] == Str(role.value)
  {
    (if name.Some? then map[NameField := Str(name.value)] else map[]) +
    (if email.Some? then map[EmailField := Str(email.value)] else map[]) +
    (if role.Some? then map[RoleField := Str(role.value)] else map[])
  }

  predicate FieldMatches(c: Customer, q: Filter, f: Field) {
    f in q ==> ValueOf(c, f) == Cast(f, q[f])
  }

  lemma MatchesOnListFields(c: Customer, q: Filter)
    requires forall f :: f in q ==> f == NameField || f == EmailField || f == RoleField
    ensures Matches(c, q) <==>
              FieldMatches(c, q, NameField) && FieldMatches(c, q, EmailField) && FieldMatches(c, q, RoleField)
  {
  }

  /** What a document must satisfy to be listed: each supplied value, after
      its setters, equals the stored one; a field left out constrains
      nothing. */
  lemma ListFilterMatches(c: Customer, name: Option<string>, email: Option<string>, role: Option<string>)
    ensures Matches(c, ListFilter(name, email, role)) <==>
              && (name.Some? ==> c.name == Some(Trim(name.value)))
              && (email.Some? ==> c.email == NormalEmail(email.value))
              && (role.Some? ==> RoleName(c.role) == role.value)
  {
    var q := ListFilter(name, email, role);
    MatchesOnListFields(c, q);
    assert FieldMatches(c, q, NameField) <==> (name.Some? ==> c.name == Some(Trim(name.value)));
    assert FieldMatches(c, q, EmailField) <==> (email.Some? ==> c.email == NormalEmail(email.value));
    assert FieldMatches(c, q, RoleField) <==> (role.Some? ==> RoleName(c.role) == role.value);
  }
}
