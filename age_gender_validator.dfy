/**
 * The checks that keep enough information for Vietnamese pronoun choice:
 * a character or user needs a gender or an age, and an age given must lie
 * between 18 and 99.
 */
module AgeGenderValidator {
  import opened Common

  datatype EntityType = Character | User

  function EntityName(e: EntityType): string
  {
    match e
    case Character => "Character"
    case User => "User"
  }

  /** `{ valid, error? }`. */
  datatype Validation = Validation(valid: bool, error: Option<string>)

  const MissingPrefix: string := "Vui lòng nhập ít nhất Giới tính HOẶC Tuổi để AI xưng hô chính xác cho "
  const TooYoung: string := "Tuổi tối thiểu là 18"
  const TooOld: string := "Tuổi tối đa là 99"
  const MinAge: int := 18
  const MaxAge: int := 99

  /**
   * `validateAgeOrGender`: valid when the gender is a non-empty string or an
   * age is given at all (0 included); otherwise an error naming the entity.
   */
  function ValidateAgeOrGender(gender: Option<string>, age: Option<int>, entityType: EntityType): (r: Validation)
    ensures r.valid <==> Present(gender) || age.Some?
    ensures r.valid ==> r.error.None?
    ensures !r.valid ==> r.error == Some(MissingPrefix + EntityName(entityType))
  {
    if Present(gender) || age.Some? then Validation(true, None)
    else Validation(false, Some(MissingPrefix + EntityName(entityType)))
  }

  /** An error message ends with the name of the entity it is about. */
  lemma MissingErrorNamesEntity(entityType: EntityType)
    ensures var r := ValidateAgeOrGender(None, None, entityType);
            !r.valid && r.error.Some? &&
            EndsWith(r.error.value, EntityName(entityType))
  {
  }

  /** An age of zero is an age: it satisfies the presence rule on its own. */
  lemma AgeZeroIsPresent(gender: Option<string>, entityType: EntityType)
    ensures ValidateAgeOrGender(gender, Some(0), entityType).valid
  {
  }

  /**
   * `validateAgeRange`: no age is fine; otherwise too low and too high get
   * their own message, and 18 to 99 inclusive is valid.
   */
  function ValidateAgeRange(age: Option<int>): (r: Validation)
    ensures r.valid <==> age.None? || MinAge <= age.value <= MaxAge
    ensures r.valid ==> r.error.None?
    ensures age.Some? && age.value < MinAge ==> r.error == Some(TooYoung)
    ensures age.Some? && age.value > MaxAge ==> r.error == Some(TooOld)
    ensures TooYoung != TooOld
  {
    if age.None? then Validation(true, None)
    else if age.value < MinAge then Validation(false, Some(TooYoung))
    else if age.value > MaxAge then Validation(false, Some(TooOld))
    else Validation(true, None)
  }

  /** An age that passes the range check also satisfies the presence check. */
  lemma InRangeAgeSatisfiesPresence(gender: Option<string>, age: int, entityType: EntityType)
    requires ValidateAgeRange(Some(age)).valid
    ensures ValidateAgeOrGender(gender, Some(age), entityType).valid && MinAge <= age <= MaxAge
  {
  }
}
