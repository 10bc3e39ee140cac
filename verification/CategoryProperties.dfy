/** Properties of the Category entity, each one the behaviour a unit test of
    the entity pins down, stated for all inputs where the test picks samples
    and for the sampled inputs themselves where the sample is the point. */
module CategoryProperties {
  import opened Wrappers
  import opened Domain

  /** The baseline valid values the tests build categories from. */
  const FixtureName: string := "Category Name"
  const FixtureDescription: string := "Category Description"

  /** A string of `n` copies of 'a', as the tests build over-long inputs. */
  function Repeat(n: nat): (s: string)
    ensures |s| == n
    ensures forall i :: 0 <= i < n ==> s[i] == 'a'
  {
    seq(n, _ => 'a')
  }

  lemma FixtureIsValid()
    ensures ValidName(FixtureName)
    ensures ValidDescription(FixtureDescription)
  {
    assert !IsWhiteSpace(FixtureName[0]);
  }

  /** A valid name and description are kept exactly as given; the id and
      the creation time are the non-empty ones supplied; the category is
      active when no flag is passed. */
  lemma ValidCategory(id: Guid, now: DateTime, name: string, description: string)
    requires id != EmptyGuid && now != DefaultDateTime
    requires ValidName(name) && ValidDescription(description)
    ensures Create(id, now, Some(name), Some(description)).Success?
    ensures var c := Create(id, now, Some(name), Some(description)).value;
            && c.name == name
            && c.description == description
            && c.id != EmptyGuid
            && c.createdAt != DefaultDateTime
            && c.isActive
  {
  }

  /** The `isActive` argument is stored unchanged, whichever value it has. */
  lemma IsActiveStored(id: Guid, now: DateTime, isActive: bool)
    requires id != EmptyGuid && now != DefaultDateTime
    ensures Create(id, now, Some(FixtureName), Some(FixtureDescription), isActive).Success?
    ensures var c := Create(id, now, Some(FixtureName), Some(FixtureDescription), isActive).value;
            && c.isActive == isActive
            && c.name == FixtureName
            && c.description == FixtureDescription
  {
    FixtureIsValid();
  }

  /** A null, empty or all-white-space name is rejected as empty, whatever
      its length: the emptiness rule precedes the minimum-length rule. */
  lemma BlankNameRejected(id: Guid, now: DateTime, name: Option<string>, description: string)
    requires id != EmptyGuid && now != DefaultDateTime
    requires name.None? || Blank(name.value)
    requires ValidDescription(description)
    ensures Create(id, now, name, Some(description)) == Failure(NameEmpty)
    ensures Create(id, now, name, Some(description)).error.Message()
              == "Name should not be empty or null"
  {
  }

  /** The three samples: "", null and "  " (two spaces, shorter than the
      minimum, yet reported as empty). */
  lemma BlankNameSamples(id: Guid, now: DateTime)
    requires id != EmptyGuid && now != DefaultDateTime
    ensures Create(id, now, Some(""), Some(FixtureDescription)) == Failure(NameEmpty)
    ensures Create(id, now, None, Some(FixtureDescription)) == Failure(NameEmpty)
    ensures Create(id, now, Some("  "), Some(FixtureDescription)) == Failure(NameEmpty)
  {
    FixtureIsValid();
    BlankNameRejected(id, now, Some("  "), FixtureDescription);
  }

  /** A null description beside a valid name is rejected with its own
      message. */
  lemma NullDescriptionRejected(id: Guid, now: DateTime, name: Option<string>)
    requires id != EmptyGuid && now != DefaultDateTime
    requires name.Some? && ValidName(name.value)
    ensures Create(id, now, name, None) == Failure(DescriptionNull)
    ensures Create(id, now, name, None).error.Message() == "Description should not be null"
  {
  }

  /** A name with some non-white-space character but fewer than three
      characters is rejected as too short. */
  lemma ShortNameRejected(id: Guid, now: DateTime, name: string, description: string)
    requires id != EmptyGuid && now != DefaultDateTime
    requires !Blank(name) && |name| < MinNameLength
    requires ValidDescription(description)
    ensures Create(id, now, Some(name), Some(description)) == Failure(NameTooShort)
    ensures Create(id, now, Some(name), Some(description)).error.Message()
              == "Name should be at leats 3 characters long"
  {
  }

  /** The samples "1", "12", "a" and "ca". */
  lemma ShortNameSamples(id: Guid, now: DateTime)
    requires id != EmptyGuid && now != DefaultDateTime
    ensures Create(id, now, Some("1"), Some(FixtureDescription)) == Failure(NameTooShort)
    ensures Create(id, now, Some("12"), Some(FixtureDescription)) == Failure(NameTooShort)
    ensures Create(id, now, Some("a"), Some(FixtureDescription)) == Failure(NameTooShort)
    ensures Create(id, now, Some("ca"), Some(FixtureDescription)) == Failure(NameTooShort)
  {
    FixtureIsValid();
    assert !IsWhiteSpace("1"[0]) && !IsWhiteSpace("12"[0]);
    assert !IsWhiteSpace("a"[0]) && !IsWhiteSpace("ca"[0]);
    ShortNameRejected(id, now, "1", FixtureDescription);
    ShortNameRejected(id, now, "12", FixtureDescription);
    ShortNameRejected(id, now, "a", FixtureDescription);
    ShortNameRejected(id, now, "ca", FixtureDescription);
  }

  /** A non-blank name longer than 255 characters is rejected as too long;
      the sample is 256 copies of 'a'. */
  lemma LongNameRejected(id: Guid, now: DateTime, name: string)
    requires id != EmptyGuid && now != DefaultDateTime
    requires !Blank(name) && |name| > MaxNameLength
    ensures Create(id, now, Some(name), Some("Category Description Ok")) == Failure(NameTooLong)
    ensures Create(id, now, Some(Repeat(256)), Some("Category Description Ok")) == Failure(NameTooLong)
    ensures Create(id, now, Some(name), Some("Category Description Ok")).error.Message()
              == "Name should be less or equal 255 characters long"
  {
    assert !IsWhiteSpace(Repeat(256)[0]);
  }

  /** A description longer than 10,000 characters beside a valid name is
      rejected as too long; the sample is 10,001 copies of 'a' beside the
      fixture name. */
  lemma LongDescriptionRejected(id: Guid, now: DateTime, name: Option<string>, description: string)
    requires id != EmptyGuid && now != DefaultDateTime
    requires name.Some? && ValidName(name.value)
    requires |description| > MaxDescriptionLength
    ensures Create(id, now, name, Some(description)) == Failure(DescriptionTooLong)
    ensures Create(id, now, Some("Category Name"), Some(Repeat(10_001))) == Failure(DescriptionTooLong)
    ensures Create(id, now, name, Some(description)).error.Message()
              == "Description should be less or equal 10.000 characters long"
  {
    FixtureIsValid();
  }

  /** The bounds are inclusive: names of 3 and of 255 characters and a
      description of exactly 10,000 characters are accepted. */
  lemma BoundariesAccepted(id: Guid, now: DateTime)
    requires id != EmptyGuid && now != DefaultDateTime
    ensures Create(id, now, Some(Repeat(MinNameLength)), Some(Repeat(MaxDescriptionLength))).Success?
    ensures Create(id, now, Some(Repeat(MaxNameLength)), Some("")).Success?
  {
    assert !IsWhiteSpace(Repeat(MinNameLength)[0]);
    assert !IsWhiteSpace(Repeat(MaxNameLength)[0]);
  }

  /** Activating an inactive category makes it active, deactivating an
      active one makes it inactive; repeating either changes nothing, and
      the last call decides the flag. */
  lemma ActivationFlag(c: Category)
    ensures !c.isActive ==> Activate(c).isActive
    ensures c.isActive ==> !Deactivate(c).isActive
    ensures Activate(Activate(c)) == Activate(c)
    ensures Deactivate(Deactivate(c)) == Deactivate(c)
    ensures Activate(Deactivate(c)) == Activate(c)
    ensures Deactivate(Activate(c)) == Deactivate(c)
    ensures c.isActive ==> Activate(c) == c
    ensures !c.isActive ==> Deactivate(c) == c
  {
  }

  /** `Update(name, description)` replaces both fields and nothing else. */
  lemma UpdateReplacesBoth(c: Category, name: string, description: string)
    requires ValidName(name) && ValidDescription(description)
    ensures Update(c, Some(name), Some(description))
              == Success(c.(name := name, description := description))
  {
  }

  /** `Update(name)` replaces the name and keeps the current description. */
  lemma UpdateOnlyName(c: Category, name: string)
    requires Valid(c) && ValidName(name)
    ensures Update(c, Some(name)) == Success(c.(name := name))
  {
  }

  /** The fixture samples: "New Name" with and without "New Description". */
  lemma UpdateSamples(id: Guid, now: DateTime)
    requires id != EmptyGuid && now != DefaultDateTime
    ensures Create(id, now, Some(FixtureName), Some(FixtureDescription)).Success?
    ensures var c := Create(id, now, Some(FixtureName), Some(FixtureDescription)).value;
            && Update(c, Some("New Name"), Some("New Description")).Success?
            && Update(c, Some("New Name"), Some("New Description")).value.name == "New Name"
            && Update(c, Some("New Name"), Some("New Description")).value.description == "New Description"
            && Update(c, Some("New Name")).Success?
            && Update(c, Some("New Name")).value.name == "New Name"
            && Update(c, Some("New Name")).value.description == FixtureDescription
  {
    FixtureIsValid();
    assert !IsWhiteSpace("New Name"[0]);
  }

  /** Update reports exactly the error construction would report for the
      proposed fields (so with the same messages), and on a valid category
      an omitted description can only fail on the name. */
  lemma UpdateErrorsMatchCreate(c: Category, name: Option<string>, description: Option<string>)
    requires Valid(c)
    ensures var proposed := description.GetOr(c.description);
            Update(c, name, description).Failure? ==>
              Create(c.id, c.createdAt, name, Some(proposed)) == Update(c, name, description)
    ensures description.None? && Update(c, name).Failure? ==>
              Update(c, name).error.IsNameError()
  {
  }

  /** The update samples: blank, short and long names and a 10,001-character
      description all fail with the construction messages. */
  lemma UpdateErrorSamples(c: Category)
    requires Valid(c)
    ensures Update(c, Some("")) == Failure(NameEmpty)
    ensures Update(c, None) == Failure(NameEmpty)
    ensures Update(c, Some("  ")) == Failure(NameEmpty)
    ensures Update(c, Some("1")) == Failure(NameTooShort)
    ensures Update(c, Some("12")) == Failure(NameTooShort)
    ensures Update(c, Some("a")) == Failure(NameTooShort)
    ensures Update(c, Some("ca")) == Failure(NameTooShort)
    ensures Update(c, Some(Repeat(256))) == Failure(NameTooLong)
    ensures Update(c, Some("Category New Name"), Some(Repeat(10_001))) == Failure(DescriptionTooLong)
  {
    assert Blank("  ");
    assert !IsWhiteSpace(Repeat(256)[0]);
  }

  /** The pipeline reports exactly one reason: the first rule, in check
      order, that the proposed fields break; it reports nothing exactly
      when no rule is broken. */
  lemma ValidateReportsFirstViolation(name: Option<string>, description: Option<string>)
    ensures Validate(name, description).None? <==>
              forall i :: 0 <= i < |CheckOrder| ==> !Violates(CheckOrder[i], name, description)
    ensures forall i :: 0 <= i < |CheckOrder| ==>
              (Validate(name, description) == Some(CheckOrder[i]) <==>
                 && Violates(CheckOrder[i], name, description)
                 && forall j :: 0 <= j < i ==> !Violates(CheckOrder[j], name, description))
  {
    assert CheckOrder[0] == DescriptionNull && CheckOrder[1] == DescriptionTooLong;
    assert CheckOrder[2] == NameEmpty && CheckOrder[3] == NameTooShort;
    assert CheckOrder[4] == NameTooLong;
  }

  /** The messages are pairwise distinct, so a message identifies the rule
      that failed. */
  lemma MessagesIdentifyErrors(e1: ValidationError, e2: ValidationError)
    ensures e1.Message() == e2.Message() ==> e1 == e2
  {
  }

  /** The lifecycle walk-through: create, deactivate, update both fields,
      then an update to "a" that fails as too short. */
  lemma Lifecycle(id: Guid, now: DateTime)
    requires id != EmptyGuid && now != DefaultDateTime
    ensures Create(id, now, Some(FixtureName), Some(FixtureDescription)).Success?
    ensures var c0 := Create(id, now, Some(FixtureName), Some(FixtureDescription)).value;
            var c1 := Deactivate(c0);
            && c0.isActive && !c1.isActive
            && Update(c1, Some("New Name"), Some("New Description")).Success?
            && var c2 := Update(c1, Some("New Name"), Some("New Description")).value;
               && c2.name == "New Name" && c2.description == "New Description"
               && !c2.isActive && c2.id == id && c2.createdAt == now
               && Update(c2, Some("a")) == Failure(NameTooShort)
  {
    FixtureIsValid();
    assert !IsWhiteSpace("New Name"[0]);
  }
}
