# Category entity of Streaming.Catalog, in Dafny

This project models the `Category` entity of the Streaming.Catalog domain:
a catalog category with a name, a description and an on/off flag, which
checks its own name and description when it is built and when it is
updated. The
entity's behaviour is the one its unit tests (`CategoryTest.cs`) pin
down: the validating constructor `(name, description, isActive = true)`,
`Activate` / `Deactivate`, and the partial `Update(name, description?)`.
The entity class's own source file is not part of this model. The field
rules, their error messages and the name-check order are taken from the
tests' assertions; three further points are assumptions the tests do not
decide, marked "(assumption)" below.

- `Wrappers.dfy` — `Option` (a value that may be null) and `Result`
  (a value or a validation error).
- `Domain.dfy` — the `Category` datatype, the closed set of
  `ValidationError`s with their fixed messages, the white-space scan,
  the validation pipeline, and `Create`, `Activate`, `Deactivate`,
  `Update` as pure functions. The declarative rules `ValidName`,
  `ValidDescription` and the invariant `Valid` are the reference the
  executable checks are proved against.
- `CategoryProperties.dfy` — one lemma per test behaviour, stated for all
  inputs and for the tests' own sample values.

Modelling choices:
- The exception (`EntityValidationException`) becomes a `Failure`
  carrying a `ValidationError`; `Message()` gives the exact text,
  including the misspelling "at leats 3 characters".
- `name` and `description` arguments are `Option<string>` so that null is
  representable. In `Update`, `None` means "keep the current description".
  The tests only ever leave the argument out; that an explicit null is
  treated the same way is an assumption, and with it `Update` never
  reports a null description.
- The id and the creation time are arguments (`Guid` and `DateTime` are
  thin wrappers over `nat`; zero is `Guid.Empty` / `default(DateTime)`),
  with preconditions that they are non-empty and non-default.
- `Update` returns a new category or an error; the caller's category is a
  value, so a failed update changes nothing by construction (assumption:
  the entity in the repository is changed in place, and its failure tests
  check only the message).
- Strings are `seq<char>` and lengths are counted in characters. The tests
  only use the plain space as white space; the model assumes the entity
  uses .NET's white-space test (`Char.IsWhiteSpace`, as behind
  `String.IsNullOrWhiteSpace`) and writes that set out: U+0009 to U+000D,
  U+0085 and the Unicode Zs, Zl and Zp characters (assumption).
- Check order: within the name rules, emptiness runs before the minimum
  length (a two-space name is reported as empty), then the maximum length.
  The tests never combine a bad name with a bad description, so the order
  between the two groups is not pinned by them; the model runs the
  description rules first; the tests do not decide this order (see
  ## Left out), and every lemma about a single bad field holds whichever
  order is used.

## Model

| member | source | states |
|---|---|---|
| Domain.ValidationError.Message | Streaming.Catalog/tests/Streaming.Catalog.UnitTests/Domain/Entity/Category/CategoryTest.cs:78-137 | each error's message is the exact exception text the tests assert ("Name should not be empty or null", "Name should be at leats 3 characters long", "Name should be less or equal 255 characters long", "Description should not be null", "Description should be less or equal 10.000 characters long"), and each text is produced by exactly one error |
| Domain.IsWhiteSpace | Streaming.Catalog/tests/Streaming.Catalog.UnitTests/Domain/Entity/Category/CategoryTest.cs:66-112 | the plain space is white space, while digits and Latin letters (the characters of the tests' short names) are not |
| Domain.AllWhiteSpace | Streaming.Catalog/tests/Streaming.Catalog.UnitTests/Domain/Entity/Category/CategoryTest.cs:66-81 | the scan answers true exactly when no character of the name is outside the white-space set, and otherwise exhibits a non-white-space character |
| Domain.ValidateName | Streaming.Catalog/tests/Streaming.Catalog.UnitTests/Domain/Entity/Category/CategoryTest.cs:66-125 | null, empty or all-white-space names fail as empty whatever their length; otherwise fewer than 3 characters fail as too short and more than 255 as too long; a name is accepted exactly when it satisfies the declarative name rule; only name errors are produced |
| Domain.ValidateDescription | Streaming.Catalog/tests/Streaming.Catalog.UnitTests/Domain/Entity/Category/CategoryTest.cs:84-138 | a null description fails as null, one over 10,000 characters as too long, and it is accepted exactly when present and at most 10,000 characters; only description errors are produced |
| Domain.Validate | Streaming.Catalog/tests/Streaming.Catalog.UnitTests/Domain/Entity/Category/CategoryTest.cs:66-138 | the proposed fields are accepted exactly when both field rules hold; with a valid description the reported error is the name's, with a valid name it is the description's |
| Domain.Create | Streaming.Catalog/tests/Streaming.Catalog.UnitTests/Domain/Entity/Category/CategoryTest.cs:16-63 | construction succeeds exactly when both field rules hold, and then keeps the given name, description, flag, id and creation time and yields a category satisfying the entity invariant; on failure it reports the pipeline's first error |
| Domain.Activate | Streaming.Catalog/tests/Streaming.Catalog.UnitTests/Domain/Entity/Category/CategoryTest.cs:141-154 | the result is active, with id, name, description and creation time unchanged and the invariant preserved |
| Domain.Deactivate | Streaming.Catalog/tests/Streaming.Catalog.UnitTests/Domain/Entity/Category/CategoryTest.cs:157-170 | the result is inactive, with id, name, description and creation time unchanged and the invariant preserved |
| Domain.Update | Streaming.Catalog/tests/Streaming.Catalog.UnitTests/Domain/Entity/Category/CategoryTest.cs:173-262 | succeeds exactly when the new name and the new-or-kept description satisfy the rules; replaces the name, replaces the description only when one is given, keeps id, flag and creation time, preserves the invariant; never reports a null description; on failure reports the pipeline's error for the proposed fields |
| CategoryProperties.FixtureIsValid | Streaming.Catalog/tests/Streaming.Catalog.UnitTests/Domain/Entity/Category/CategoryTestFixture.cs:5-6 | the fixture values "Category Name" and "Category Description" satisfy the field rules |
| CategoryProperties.ValidCategory | Streaming.Catalog/tests/Streaming.Catalog.UnitTests/Domain/Entity/Category/CategoryTest.cs:16-37 | with a valid name and description and no flag, construction succeeds with both kept exactly, a non-empty id, a non-default creation time, and the category active |
| CategoryProperties.IsActiveStored | Streaming.Catalog/tests/Streaming.Catalog.UnitTests/Domain/Entity/Category/CategoryTest.cs:40-63 | the isActive argument is stored unchanged for both true and false |
| CategoryProperties.BlankNameRejected | Streaming.Catalog/tests/Streaming.Catalog.UnitTests/Domain/Entity/Category/CategoryTest.cs:66-81 | any null or all-white-space name beside a valid description fails with "Name should not be empty or null" |
| CategoryProperties.BlankNameSamples | Streaming.Catalog/tests/Streaming.Catalog.UnitTests/Domain/Entity/Category/CategoryTest.cs:66-81 | the samples "", null and "  " all fail as empty, the two-space one despite being shorter than 3 |
| CategoryProperties.NullDescriptionRejected | Streaming.Catalog/tests/Streaming.Catalog.UnitTests/Domain/Entity/Category/CategoryTest.cs:84-95 | a null description beside a valid name fails with "Description should not be null" |
| CategoryProperties.ShortNameRejected | Streaming.Catalog/tests/Streaming.Catalog.UnitTests/Domain/Entity/Category/CategoryTest.cs:97-112 | a non-blank name under 3 characters beside a valid description fails with "Name should be at leats 3 characters long" |
| CategoryProperties.ShortNameSamples | Streaming.Catalog/tests/Streaming.Catalog.UnitTests/Domain/Entity/Category/CategoryTest.cs:97-112 | the samples "1", "12", "a" and "ca" all fail as too short |
| CategoryProperties.LongNameRejected | Streaming.Catalog/tests/Streaming.Catalog.UnitTests/Domain/Entity/Category/CategoryTest.cs:115-125 | a non-blank name over 255 characters, the 256-character sample among them, fails with "Name should be less or equal 255 characters long" |
| CategoryProperties.LongDescriptionRejected | Streaming.Catalog/tests/Streaming.Catalog.UnitTests/Domain/Entity/Category/CategoryTest.cs:128-138 | a description over 10,000 characters beside a valid name, the 10,001-character sample among them, fails with "Description should be less or equal 10.000 characters long" |
| CategoryProperties.BoundariesAccepted | Streaming.Catalog/tests/Streaming.Catalog.UnitTests/Domain/Entity/Category/CategoryTest.cs:97-138 | the bounds are inclusive: names of exactly 3 and 255 characters and a description of exactly 10,000 (or 0) characters are accepted |
| CategoryProperties.ActivationFlag | Streaming.Catalog/tests/Streaming.Catalog.UnitTests/Domain/Entity/Category/CategoryTest.cs:141-170 | activating an inactive category makes it active and deactivating an active one inactive; each is idempotent and the last call decides the flag |
| CategoryProperties.UpdateReplacesBoth | Streaming.Catalog/tests/Streaming.Catalog.UnitTests/Domain/Entity/Category/CategoryTest.cs:173-184 | updating with a valid name and description replaces exactly those two fields |
| CategoryProperties.UpdateOnlyName | Streaming.Catalog/tests/Streaming.Catalog.UnitTests/Domain/Entity/Category/CategoryTest.cs:187-199 | updating a valid category with only a valid name replaces the name and keeps the current description |
| CategoryProperties.UpdateSamples | Streaming.Catalog/tests/Streaming.Catalog.UnitTests/Domain/Entity/Category/CategoryTest.cs:173-199 | on the fixture category, "New Name" with "New Description" replaces both, and "New Name" alone keeps "Category Description" |
| CategoryProperties.UpdateErrorsMatchCreate | Streaming.Catalog/tests/Streaming.Catalog.UnitTests/Domain/Entity/Category/CategoryTest.cs:202-262 | a failed update reports the same error construction would report for the proposed fields; with the description omitted only name errors occur |
| CategoryProperties.UpdateErrorSamples | Streaming.Catalog/tests/Streaming.Catalog.UnitTests/Domain/Entity/Category/CategoryTest.cs:202-262 | on a valid category, the tests' blank, short and 256-character names and the 10,001-character description fail with the construction messages |
| CategoryProperties.ValidateReportsFirstViolation | Streaming.Catalog/tests/Streaming.Catalog.UnitTests/Domain/Entity/Category/CategoryTest.cs:66-138 | construction and update report exactly one reason: the first rule, in check order, that the proposed fields break, and nothing exactly when no rule is broken; with the rules defined one by one, independently of the pipeline |
| CategoryProperties.MessagesIdentifyErrors | Streaming.Catalog/tests/Streaming.Catalog.UnitTests/Domain/Entity/Category/CategoryTest.cs:78-80 | the five messages are pairwise distinct, so a message identifies the failed rule |
| CategoryProperties.Lifecycle | Streaming.Catalog/tests/Streaming.Catalog.UnitTests/Domain/Entity/Category/CategoryTest.cs:141-232 | create the fixture category (active), deactivate it, update both fields, then an update to "a" fails as too short |

## Left out

- Generation of the id (`Guid.NewGuid`) and reading the clock for the creation time: both are arguments, required non-empty / non-default.
- The tests' clock-window checks (creation time strictly between two readings of the clock): they need a real clock.
- The exception mechanism itself: failures are `Failure` values carrying the error whose `Message()` is the exception's text.
- The xUnit / FluentAssertions fixture and collection wiring: only the fixture's two valid values are kept.
- UTF-16 code units versus characters: lengths count Dafny characters (Unicode scalar values), so characters outside the Basic Multilingual Plane count once here and twice in .NET.
- The order between the description rules and the name rules when both fields are bad: the tests do not pin it; the model's choice (description first) shows only in `Domain.Validate` and in the check order of `CategoryProperties.ValidateReportsFirstViolation`.
- Domain.Update: the C# entity is changed in place; the model returns a new value, so a failed update changes nothing. The shown tests do not say this.
- Domain.Update: an explicit null description is treated like an omitted one (keep the current description); the tests only leave the argument out.
- Domain.IsWhiteSpace: the full .NET white-space set is an assumption about the entity; the tests only exercise the plain space.
- The entity class source, persistence, API layers: not part of this model.
