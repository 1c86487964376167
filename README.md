# Customer model of the interactive digital wallet

This project is a Dafny model of the `Customer` model in
`interactive-digital-wallet/Home.js`. That file defines a Mongoose schema,
its pre-save hook, instance methods and statics, together with the
auto-increment counter behind `accountNumber`. The model covers:

- **The schema** (`customer_schema.dfy`):
  - the stored record and the input that `create` or a save receives;
  - the setters: `trim` and `lowercase` on the email, `trim` on the name;
  - the defaults: role `customer`, balance 0;
  - the validators: `required`, `minlength`/`maxlength`, the `enum` of roles and `min: 0` on the balance.
  - Validation yields the set of failing paths.
  - `WellFormed` states, without the setters, what every stored record satisfies.
- **The setters themselves** (`text.dfy`):
  - JavaScript's `trim`, over the ECMAScript white-space and line-terminator characters;
  - `toLowerCase`, on ASCII letters.
- **The document methods** (`customer_document.dfy`):
  - `transform` and `transformBalance`, as the loop that copies a field whitelist;
  - the token payload `{exp, iat, sub}`;
  - `passwordMatches`.
- **Queries** (`query.dfy`):
  - equality filters, with the setters applied to filter values as Mongoose casts them;
  - `find` and `findOne` over the collection in insertion order;
  - the sparse filter that `list` builds with `omitBy(..., isNil)`.
- **The model** (`customer_store.dfy`). The class `Customers` owns the collection and the account-number counter. The configuration is class constants: the hash, `ObjectId.isValid`, the token interval, the master account's number and its password. The class has these operations:
  - `create`, in the model's order: validation, then the unique indexes on `_id` and `email`, then the pre-save hook (the hash at line 58), then the counter. In Mongoose the hooks, including the plugin's counter at line 188, run before the insert, and the unique indexes fail only at the insert;
  - a save of an existing document, where the hook hashes only a modified password;
  - the statics `get`, `getMasterAccount`, `findAndGenerateToken` and `list`.

  The invariant `Inv` holds between operations:
  - stored records are well formed;
  - emails and ids are unique;
  - the numbers the counter issued lie in `[1001, next)` and are pairwise distinct.

  `AppendKeepsInv` and `UpdateKeepsInv` prove that inserts and updates preserve it.

The code never decodes a token. `Subject` gives the `exp` claim its meaning:
the token names its subject up to and including `exp`, as a JWT library
checks it. An explicit account number, such as the master account's, is not
checked against the numbers the counter issued, so only the counter-issued
numbers are proved distinct.

## Model

| member | source | states |
|---|---|---|
| Text.TrimStartSpec | interactive-digital-wallet/Home.js:25 | trimming the start drops a prefix of white space only, and the rest starts with a non-space character |
| Text.TrimEndSpec | interactive-digital-wallet/Home.js:25 | trimming the end drops a suffix of white space only, and the rest ends with a non-space character |
| Text.TrimIsCore | interactive-digital-wallet/Home.js:25 | `trim` returns a contiguous slice of the input with no white space at either end, and what it removes is white space |
| Text.TrimmedIsFixed | interactive-digital-wallet/Home.js:38 | a string without white space at its ends is left unchanged by `trim` |
| Text.TrimIdempotent | interactive-digital-wallet/Home.js:38 | trimming twice equals trimming once |
| Text.TrimEmptyIffAllSpace | interactive-digital-wallet/Home.js:23-25 | `trim` yields the empty string exactly when the input is all white space |
| Text.LowerSpec | interactive-digital-wallet/Home.js:26 | lowercasing keeps the length, leaves no upper-case letter and changes nothing but upper-case letters |
| Text.LowerOfLowerIsFixed | interactive-digital-wallet/Home.js:26 | a string without upper-case letters is left unchanged |
| Text.LowerIdempotent | interactive-digital-wallet/Home.js:26 | lowercasing twice equals lowercasing once |
| Text.LowerTrimStart | interactive-digital-wallet/Home.js:25-26 | lowercasing commutes with trimming the start |
| Text.LowerTrimEnd | interactive-digital-wallet/Home.js:25-26 | lowercasing commutes with trimming the end |
| Text.TrimLowerCommute | interactive-digital-wallet/Home.js:25-26 | the order of the email's two setters does not matter |
| Text.NormalEmailShape | interactive-digital-wallet/Home.js:20-27 | a normalised email has no white space at its ends and no upper-case letter |
| Text.NormalEmailEmpty | interactive-digital-wallet/Home.js:20-27 | a normalised email is empty exactly when the input is all white space |
| Text.NormalEmailOfNormal | interactive-digital-wallet/Home.js:20-27 | an email already trimmed and lower-case is its own normal form |
| Text.NormalEmailIdempotent | interactive-digital-wallet/Home.js:20-27 | normalising an email twice equals normalising it once |
| CustomerSchema.ParseRole | interactive-digital-wallet/Home.js:16 | a string names a role exactly when it is one of `customer`, `admin`, and names that role back |
| CustomerSchema.ParseRoleName | interactive-digital-wallet/Home.js:40-44 | every role's name parses back to the role |
| CustomerSchema.Violations | interactive-digital-wallet/Home.js:19-49 | a path is in the error set exactly when its validator rejects the input; the set is empty exactly when every validator accepts |
| CustomerSchema.ViolationsMeaning | interactive-digital-wallet/Home.js:19-49 | each validator in source terms: a new document needs email and password; an all-space email is missing; the password needs 6 to 128 characters; the trimmed name allows at most 128; the role must be in the enum; the balance cannot be below 0 |
| CustomerSchema.TrimmedName | interactive-digital-wallet/Home.js:34-39 | the name setter keeps presence and yields a trimmed name |
| CustomerSchema.NewCustomer | interactive-digital-wallet/Home.js:19-53 | a validated input becomes a well-formed record: email normalised, name trimmed, role defaulting to `customer`, balance defaulting to 0, the digest stored in place of the password |
| CustomerSchema.Updated | interactive-digital-wallet/Home.js:19-49 | setting validated paths on a stored record keeps it well formed, changes only the paths set and the digest, and never changes id, account number or creation time |
| CustomerSchema.StoredEmailIsNormal | interactive-digital-wallet/Home.js:25-26 | the setters leave a stored email unchanged |
| CustomerSchema.StoredNameIsNormal | interactive-digital-wallet/Home.js:38 | the setter leaves a stored name unchanged |
| CustomerSchema.StoredValuesRevalidate | interactive-digital-wallet/Home.js:19-49 | a stored record's own email, name, role and balance pass every validator when set again |
| CustomerSchema.PasswordLengthBoundary | interactive-digital-wallet/Home.js:28-33 | a 5-character password is rejected and a 6-character one accepted |
| CustomerDocument.Pick | interactive-digital-wallet/Home.js:79-81 | the copying loop yields exactly the listed fields, each with the document's value |
| CustomerDocument.TransformBalance | interactive-digital-wallet/Home.js:75-84 | the output holds exactly id, accountNumber, name, email, role, balance and createdAt, with the document's values, and never the password |
| CustomerDocument.Transform | interactive-digital-wallet/Home.js:85-94 | the output holds exactly id, accountNumber, name, email, role and createdAt, and neither the balance nor the password |
| CustomerDocument.Token | interactive-digital-wallet/Home.js:96-101 | the subject is the customer's id, the token is issued now and expires the configured number of minutes later |
| CustomerDocument.TokenLifetime | interactive-digital-wallet/Home.js:96-101 | at any time, a token names its customer exactly until the configured number of minutes after issue, and nothing afterwards |
| CustomerDocument.MatchesExactlyOwnPassword | interactive-digital-wallet/Home.js:105-107 | a digest matches the password it was computed from and, for a one-to-one hash, no other |
| Query.Find | interactive-digital-wallet/Home.js:180 | `find` returns exactly the documents matching the filter, and no more than there are |
| Query.FindOne | interactive-digital-wallet/Home.js:145 | `findOne` returns nothing exactly when no document matches, otherwise a matching stored document |
| Query.FindOneIsFirstOfFind | interactive-digital-wallet/Home.js:145 | `findOne` is the first result of `find` |
| Query.FindAllMatching | interactive-digital-wallet/Home.js:178-180 | a filter every document matches returns the whole collection, in order |
| Query.FindOneUnique | interactive-digital-wallet/Home.js:162 | when only one document matches, `findOne` returns it |
| Query.ListFilter | interactive-digital-wallet/Home.js:178 | the filter holds exactly the supplied ones among name, email and role, with their values |
| Query.ListFilterMatches | interactive-digital-wallet/Home.js:175-180 | a document matches the list filter exactly when each supplied value, after its setters, equals the stored one |
| CustomerStore.IndexOf | interactive-digital-wallet/Home.js:120 | the position of the first document with the id, or -1 exactly when no document has it |
| CustomerStore.Modified | interactive-digital-wallet/Home.js:60 | the password counts as modified exactly when a value different from the stored one was set |
| CustomerStore.MatchesByEmail | interactive-digital-wallet/Home.js:162 | the email lookup matches exactly the documents holding the normalised email |
| CustomerStore.MatchesByAccountNumber | interactive-digital-wallet/Home.js:145 | the account-number lookup matches exactly the documents with that number |
| CustomerStore.MatchesById | interactive-digital-wallet/Home.js:120 | the id lookup matches exactly the document with that id |
| CustomerStore.MasterEmailIsNormal | interactive-digital-wallet/Home.js:141 | the master email is already in normal form |
| CustomerStore.FindAppend | interactive-digital-wallet/Home.js:145-150 | inserting a document adds it at the end of `find` when it matches and changes nothing otherwise |
| CustomerStore.FindOneAppend | interactive-digital-wallet/Home.js:145-150 | inserting a document leaves an existing `findOne` result in place, and becomes the result when there was none and it matches |
| CustomerStore.FindById | interactive-digital-wallet/Home.js:115-124 | `findById` finds a document exactly when one holds the id, and it is that document |
| CustomerStore.AppendKeepsInv | interactive-digital-wallet/Home.js:20-27 | inserting a well-formed record with a new email and id keeps the invariant; a counter-numbered record takes the counter's value and advances it |
| CustomerStore.UpdateKeepsInv | interactive-digital-wallet/Home.js:58-66 | replacing a record by a well-formed one with the same id and number, and no email clash, keeps the invariant |
| CustomerStore.MasterCustomer | interactive-digital-wallet/Home.js:137-143 | the master record is the admin named `Master Account` with email `master_account@bank.com`, the given number and a zero balance |
| CustomerStore.MasterFieldsAccepted | interactive-digital-wallet/Home.js:137-143 | the master input passes validation exactly when the configured password has 6 to 128 characters |
| CustomerStore.MasterViolations | interactive-digital-wallet/Home.js:137-143 | a master input whose password is outside 6 to 128 characters fails on the password path and no other |
| CustomerStore.Customers.constructor | interactive-digital-wallet/Home.js:188-193 | an empty collection whose counter starts at 1001 and has numbered nobody |
| CustomerStore.Customers.Create | interactive-digital-wallet/Home.js:19-71 | invalid input fails with its failing paths; valid input fails exactly on a taken email or id, and then with DuplicateKey; a failure changes nothing; success appends the record with `hash(password)` stored; the counter advances by 1, and the record's id joins the counter-numbered ids, exactly on a successful insert without an explicit number; `get` then returns the new record |
| CustomerStore.Customers.Save | interactive-digital-wallet/Home.js:58-71 | an unknown id is NOT_FOUND; modified paths are validated; an email held by another record fails with DuplicateKey; success replaces the record in place; an unchanged password keeps its digest and a changed one is hashed |
| CustomerStore.Customers.Get | interactive-digital-wallet/Home.js:115-133 | returns the customer exactly when the id is valid and stored, otherwise NOT_FOUND |
| CustomerStore.Customers.GetMasterAccount | interactive-digital-wallet/Home.js:136-155 | returns the holder of the master number unchanged when there is one; otherwise inserts exactly one admin master record, or fails without change, with ValidationFailed on the password path for a password outside 6 to 128 characters and DuplicateKey otherwise; afterwards the lookup finds the returned record |
| CustomerStore.Customers.FindAndGenerateToken | interactive-digital-wallet/Home.js:158-172 | a missing email is the email-required error; success exactly when a password is given and the customer holding the normalised email matches it, returning that customer and its token; every other case is UNAUTHORIZED |
| CustomerStore.Customers.FindByEmailIsTheHolder | interactive-digital-wallet/Home.js:162 | with unique emails the email lookup finds exactly the customer holding the normalised email |
| CustomerStore.Customers.List | interactive-digital-wallet/Home.js:175-182 | returns exactly the customers whose name, email and role equal each supplied value after its setters; with no value supplied, every customer in order |
| CustomerStore.BootstrapTwice | interactive-digital-wallet/Home.js:136-151 | a second `getMasterAccount` returns the first call's record and changes nothing; a created master is the only holder of the number |
| CustomerStore.TwoSignUps | interactive-digital-wallet/Home.js:188-193 | two counter-numbered creates receive consecutive numbers from the counter's value, both at least 1001; both ids join the counter-numbered ids and `get` returns each record |

## Left out

- bcrypt: `hash` is an abstract function. The salt, the cost switch `rounds` (line 62) and the asynchronous call are not modelled. `passwordMatches` is `hash(password) == stored`.
- JWT encoding and signing with `jwtSecret`: the token is its payload. The two `moment()` readings are one `now` parameter.
- `mongoose.Types.ObjectId.isValid`: an abstract predicate on ids. The id of a new document is a parameter rather than a generated ObjectId. `create` and `getMasterAccount` require the new id to pass `isValid`, as a generated ObjectId always does.
- The database connection, plugin initialisation, `.exec()` and the asynchronous error plumbing: replaced by the in-memory collection.
- Concurrency: operations are sequential, so the atomicity of the unique indexes and of the counter is not modelled.
- Pagination: `page` and `perPage` (line 176) are never applied, and `refreshObject` (line 159) is unused.
- Timestamps: `createdAt` is a parameter of create, and `updatedAt` is not modelled.
- Customers.Create: the auto-increment plugin's source is not part of this model. The model assumes the counter advances only on a successful insert without an explicit number, and that an explicit number leaves the counter alone.
- Customers.Create: the configured master number is not claimed distinct from counter-issued numbers.
- Customers.FindAndGenerateToken: lines 167-171 lack two closing braces and do not parse. The model follows the evident intent: a match returns the customer and token, and every other case throws UNAUTHORIZED.
- Text.Lower: lowercases ASCII letters only; JavaScript's `toLowerCase` also maps non-ASCII letters.
- CustomerSchema.Violations: lengths count Unicode characters, whereas JavaScript counts UTF-16 code units, so they differ for characters outside the Basic Multilingual Plane.
- Floating point: the balance is a real number. Floating point, NaN and Mongoose's casting of non-string or non-number input are not modelled.
- Query.Find: results follow insertion order, which stands in for MongoDB's natural order. A `find` or `findOne` without a sort does not guarantee that order. Two results depend on this choice: the order of `list`, and which customer `findOne({accountNumber})` at line 145 returns when the counter has also issued the master number.
- Customers.Save: validates only the modified paths. By default Mongoose also revalidates required and loaded paths (`validateModifiedOnly` is off). The outcome is the same: a stored record's own values pass every validator (`StoredValuesRevalidate`), and the 60-character bcrypt digest passes the 6 to 128 length check.
