/** The GraphQL input `CitygovPersonCompetence`: six optional search values
    for a person's area of competence. */
module CompetenceInput {
  import opened Wrappers
  import opened Strings

  datatype CitygovPersonCompetence = CitygovPersonCompetence(
    prefix: Option<string>,
    tin: Option<string>,
    file: Option<string>,
    licensePlateLetter: Option<string>,
    licensePlateRegion: Option<string>,
    licensePlateNumber: Option<string>)

  /** A freshly constructed input: every field null. */
  const DEFAULT := CitygovPersonCompetence(None, None, None, None, None, None)

  /** A field left null, `''` or `'0'`. */
  predicate Blank(v: Option<string>) {
    v == None || v == Some("") || v == Some("0")
  }

  /** PHP `!empty($value)` on a nullable string: set, and neither `''` nor `'0'`. */
  function IsSet(v: Option<string>): (b: bool)
    ensures b <==> !Blank(v)
  {
    v.Some? && !IsEmpty(v.value)
  }

  /** `hasFilter()`: a filter exactly when not every field is blank. */
  function HasFilter(c: CitygovPersonCompetence): (b: bool)
    ensures b <==> !(Blank(c.prefix) && Blank(c.tin) && Blank(c.file) &&
                     Blank(c.licensePlateLetter) && Blank(c.licensePlateRegion) &&
                     Blank(c.licensePlateNumber))
  {
    IsSet(c.prefix) || IsSet(c.tin) || IsSet(c.file) ||
    IsSet(c.licensePlateLetter) || IsSet(c.licensePlateRegion) || IsSet(c.licensePlateNumber)
  }

  /** The default input, and any input holding only nulls, `''` and `'0'`,
      has no filter. */
  lemma NoFilterWhenNothingSet(c: CitygovPersonCompetence)
    requires Blank(c.prefix) && Blank(c.tin) && Blank(c.file)
    requires Blank(c.licensePlateLetter) && Blank(c.licensePlateRegion) && Blank(c.licensePlateNumber)
    ensures !HasFilter(c)
    ensures !HasFilter(DEFAULT)
  {
  }

  /** Setting any one field to a value other than `''` and `'0'` gives a
      filter, whatever the other fields hold. */
  lemma AnyFieldSetGivesFilter(c: CitygovPersonCompetence, v: string)
    requires !IsEmpty(v)
    ensures HasFilter(c.(prefix := Some(v)))
    ensures HasFilter(c.(tin := Some(v)))
    ensures HasFilter(c.(file := Some(v)))
    ensures HasFilter(c.(licensePlateLetter := Some(v)))
    ensures HasFilter(c.(licensePlateRegion := Some(v)))
    ensures HasFilter(c.(licensePlateNumber := Some(v)))
  {
  }
}
