/** The Category entity of the catalog domain: a category with a name, a
    description and an on/off flag, which checks its own name and
    description when it is built and when it is updated.

    Construction and update report the first failed rule as a
    `ValidationError` (the system raises an `EntityValidationException`
    carrying the error's message); on failure no entity is produced. The
    entity in the repository is changed in place by an update; here an
    update returns a new value, so a failed update leaves the caller's
    category as it was, which the tests themselves do not check. */
module Domain {
  import opened Wrappers

  /** A globally unique identifier; `EmptyGuid` is the all-zero value. The
      generator itself is outside the model: ids are passed in. */
  datatype Guid = Guid(bits: nat)

  const EmptyGuid: Guid := Guid(0)

  /** A point in time, in ticks; `DefaultDateTime` is the zero value. The
      clock is outside the model: creation times are passed in. */
  datatype DateTime = DateTime(ticks: nat)

  const DefaultDateTime: DateTime := DateTime(0)

  const MinNameLength: nat := 3
  const MaxNameLength: nat := 255
  const MaxDescriptionLength: nat := 10_000

  datatype Category = Category(
    id: Guid,
    name: string,
    description: string,
    isActive: bool,
    createdAt: DateTime
  )

  /** The closed set of reasons construction or update can fail. */
  datatype ValidationError =
    | NameEmpty
    | NameTooShort
    | NameTooLong
    | DescriptionNull
    | DescriptionTooLong
  {
    /** The fixed message the exception carries, verbatim (including the
        misspelling "leats"); each text belongs to exactly one error. */
    function Message(): (m: string)
      ensures m == "Name should not be empty or null" <==> NameEmpty?
      ensures m == "Name should be at leats 3 characters long" <==> NameTooShort?
      ensures m == "Name should be less or equal 255 characters long" <==> NameTooLong?
      ensures m == "Description should not be null" <==> DescriptionNull?
      ensures m == "Description should be less or equal 10.000 characters long" <==> DescriptionTooLong?
    {
      match this
      case NameEmpty => "Name should not be empty or null"
      case NameTooShort => "Name should be at leats 3 characters long"
      case NameTooLong => "Name should be less or equal 255 characters long"
      case DescriptionNull => "Description should not be null"
      case DescriptionTooLong => "Description should be less or equal 10.000 characters long"
    }

    predicate IsNameError() {
      NameEmpty? || NameTooShort? || NameTooLong?
    }
  }

  /** White space in the sense of .NET's `Char.IsWhiteSpace`: the control
      characters U+0009 to U+000D, U+0085, and the Unicode separator
      categories Zs, Zl and Zp. That the entity uses this set is an
      assumption; the tests only use the plain space. */
  function IsWhiteSpace(c: char): (b: bool)
    ensures c == ' ' ==> b
    ensures b ==> !('0' <= c <= '9') && !('a' <= c <= 'z') && !('A' <= c <= 'Z')
  {
    || ('\t' <= c <= '\r')
    || c == ' '
    || c == '\U{85}'
    || c == '\U{A0}'
    || c == '\U{1680}'
    || ('\U{2000}' <= c <= '\U{200A}')
    || c == '\U{2028}'
    || c == '\U{2029}'
    || c == '\U{202F}'
    || c == '\U{205F}'
    || c == '\U{3000}'
  }

  /** A string with no character that is not white space (the empty string
      included). */
  ghost predicate Blank(s: string) {
    forall i :: 0 <= i < |s| ==> IsWhiteSpace(s[i])
  }

  /** The white-space scan of a non-null name (the model assumes the entity
      tests names with `String.IsNullOrWhiteSpace`). */
  function AllWhiteSpace(s: string): (r: bool)
    ensures r <==> Blank(s)
    ensures !r ==> exists i :: 0 <= i < |s| && !IsWhiteSpace(s[i])
  {
    if |s| == 0 then true
    else IsWhiteSpace(s[0]) && AllWhiteSpace(s[1..])
  }

  /** The field rules, stated declaratively. */
  ghost predicate ValidName(name: string) {
    !Blank(name) && MinNameLength <= |name| <= MaxNameLength
  }

  ghost predicate ValidDescription(description: string) {
    |description| <= MaxDescriptionLength
  }

  /** The invariant every category the entity hands out satisfies. */
  ghost predicate Valid(c: Category) {
    && c.id != EmptyGuid
    && c.createdAt != DefaultDateTime
    && ValidName(c.name)
    && ValidDescription(c.description)
  }

  /** The name rules in their order: emptiness first, then the lower and
      the upper length bound. */
  function ValidateName(name: Option<string>): (r: Option<ValidationError>)
    ensures r.None? <==> name.Some? && ValidName(name.value)
    ensures r.Some? ==> r.value.IsNameError()
    ensures r == Some(NameEmpty) <==> name.None? || Blank(name.value)
    ensures r == Some(NameTooShort) <==>
              name.Some? && !Blank(name.value) && |name.value| < MinNameLength
    ensures r == Some(NameTooLong) <==>
              name.Some? && !Blank(name.value) && |name.value| > MaxNameLength
  {
    match name
    case None => Some(NameEmpty)
    case Some(n) =>
      if AllWhiteSpace(n) then Some(NameEmpty)
      else if |n| < MinNameLength then Some(NameTooShort)
      else if |n| > MaxNameLength then Some(NameTooLong)
      else None
  }

  /** The description rules: present, and at most 10,000 characters. */
  function ValidateDescription(description: Option<string>): (r: Option<ValidationError>)
    ensures r.None? <==> description.Some? && ValidDescription(description.value)
    ensures r.Some? ==> !r.value.IsNameError()
    ensures r == Some(DescriptionNull) <==> description.None?
    ensures r == Some(DescriptionTooLong) <==>
              description.Some? && |description.value| > MaxDescriptionLength
  {
    match description
    case None => Some(DescriptionNull)
    case Some(d) =>
      if |d| > MaxDescriptionLength then Some(DescriptionTooLong)
      else None
  }

  /** The rules in the order they are checked. */
  const CheckOrder: seq<ValidationError> :=
    [DescriptionNull, DescriptionTooLong, NameEmpty, NameTooShort, NameTooLong]

  /** Whether the proposed fields break the rule `e` taken on its own, as if
      every earlier rule had passed. */
  ghost predicate Violates(e: ValidationError, name: Option<string>, description: Option<string>) {
    match e
    case DescriptionNull => description.None?
    case DescriptionTooLong => description.Some? && |description.value| > MaxDescriptionLength
    case NameEmpty => name.None? || Blank(name.value)
    case NameTooShort => name.Some? && |name.value| < MinNameLength
    case NameTooLong => name.Some? && |name.value| > MaxNameLength
  }

  /** The whole pipeline: the first failed rule, or `None` when the proposed
      fields are acceptable. Description rules run before name rules. */
  function Validate(name: Option<string>, description: Option<string>): (r: Option<ValidationError>)
    ensures r.None? <==>
              && name.Some? && ValidName(name.value)
              && description.Some? && ValidDescription(description.value)
    ensures description.Some? && ValidDescription(description.value) ==>
              r == ValidateName(name)
    ensures name.Some? && ValidName(name.value) ==>
              r == ValidateDescription(description)
  {
    match ValidateDescription(description)
    case Some(e) => Some(e)
    case None => ValidateName(name)
  }

  /** The constructor `(name, description, isActive = true)`. */
  function Create(
    id: Guid,
    createdAt: DateTime,
    name: Option<string>,
    description: Option<string>,
    isActive: bool := true
  ): (r: Result<Category, ValidationError>)
    requires id != EmptyGuid
    requires createdAt != DefaultDateTime
    ensures r.Success? <==>
              && name.Some? && ValidName(name.value)
              && description.Some? && ValidDescription(description.value)
    ensures r.Success? ==>
              && Valid(r.value)
              && r.value.id == id
              && r.value.createdAt == createdAt
              && r.value.name == name.value
              && r.value.description == description.value
              && r.value.isActive == isActive
    ensures r.Failure? ==> Validate(name, description) == Some(r.error)
  {
    match Validate(name, description)
    case Some(e) => Failure(e)
    case None => Success(Category(id, name.value, description.value, isActive, createdAt))
  }

  /** `Activate()`: the category becomes active; nothing else changes. */
  function Activate(c: Category): (r: Category)
    ensures r.isActive
    ensures r.id == c.id && r.createdAt == c.createdAt
    ensures r.name == c.name && r.description == c.description
    ensures Valid(c) ==> Valid(r)
  {
    c.(isActive := true)
  }

  /** `Deactivate()`: the category becomes inactive; nothing else changes. */
  function Deactivate(c: Category): (r: Category)
    ensures !r.isActive
    ensures r.id == c.id && r.createdAt == c.createdAt
    ensures r.name == c.name && r.description == c.description
    ensures Valid(c) ==> Valid(r)
  {
    c.(isActive := false)
  }

  /** `Update(name, description = null)`: an omitted (null) description
      keeps the current one. The proposed fields go through the same
      pipeline as construction before anything is replaced. */
  function Update(c: Category, name: Option<string>, description: Option<string> := None):
    (r: Result<Category, ValidationError>)
    ensures r.Success? <==>
              && name.Some? && ValidName(name.value)
              && ValidDescription(description.GetOr(c.description))
    ensures r.Success? ==>
              && r.value.id == c.id
              && r.value.createdAt == c.createdAt
              && r.value.isActive == c.isActive
              && r.value.name == name.value
              && (description.Some? ==> r.value.description == description.value)
              && (description.None? ==> r.value.description == c.description)
    ensures r.Success? && Valid(c) ==> Valid(r.value)
    ensures r.Failure? ==> r.error != DescriptionNull
    ensures r.Failure? ==> Validate(name, Some(description.GetOr(c.description))) == Some(r.error)
  {
    var d := description.GetOr(c.description);
    match Validate(name, Some(d))
    case Some(e) => Failure(e)
    case None => Success(c.(name := name.value, description := d))
  }
}
