/** `SuggestCitygovPersonQueryFactory` and `SearchCitygovPersonQueryFactory`:
    the suggest and search queries for persons, built from the GraphQL input
    and the person filters. */
module QueryFactories {
  import opened Wrappers
  import opened PersonFilter
  import opened CompetenceInput

  /** The parts of the search library's `SuggestQuery` this factory sets:
      the text to complete, the language code handed to
      `ResourceLanguage::of`, the filters and the limit. */
  datatype SuggestQuery = SuggestQuery(text: string, lang: Option<string>, filters: seq<Filter>, limit: int)

  /** The parts of `SearchQuery` that depend on the input. */
  datatype SearchQuery = SearchQuery(text: string, lang: Option<string>, offset: int, limit: int, filters: seq<Filter>)

  const DEFAULT_LIMIT := 10
  const DEFAULT_OFFSET := 0

  /** The text a suggestion for `field` completes: the person's value, or
      `''` when the person or the value is null. */
  function SuggestText(person: Option<CitygovPerson>, field: CitygovPersonField): (t: string)
    ensures person.Some? && Value(person.value, field).Some? ==> t == Value(person.value, field).value
    ensures person.None? || Value(person.value, field).None? ==> t == ""
  {
    if person.Some? then Value(person.value, field).GetOr("") else ""
  }

  /** `createFor`. */
  function CreateFor(input: SuggestInput, field: CitygovPersonField): (q: SuggestQuery)
    ensures q.text == SuggestText(input.person, field)
    ensures q.lang == input.lang
    ensures q.filters == InputFilters(input.person, input.personCompetence)
    ensures input.limit.Some? ==> q.limit == input.limit.value
    ensures input.limit.None? ==> q.limit == DEFAULT_LIMIT
  {
    SuggestQuery(SuggestText(input.person, field), input.lang,
                 InputFilters(input.person, input.personCompetence), input.limit.GetOr(DEFAULT_LIMIT))
  }

  /** The filters of a suggestion do not depend on the field it completes. */
  lemma FiltersIndependentOfField(input: SuggestInput, f: CitygovPersonField, g: CitygovPersonField)
    ensures CreateFor(input, f).filters == CreateFor(input, g).filters
    ensures CreateFor(input, f).limit == CreateFor(input, g).limit
    ensures CreateFor(input, f).lang == CreateFor(input, g).lang
  {
  }

  /** A completed value that is set, and not `'0'`, is itself among the
      suggestion's filters: the suggestion only offers persons matching the
      text being completed. */
  lemma SuggestTextIsFiltered(input: SuggestInput, field: CitygovPersonField)
    requires input.person.Some? && IsSet(Value(input.person.value, field))
    ensures FilterFor(field, CreateFor(input, field).text) in CreateFor(input, field).filters
  {
    var p := input.person.value;
    PersonFiltersMembership(p, field, Value(p, field).value);
    InputFiltersShape(input.person, input.personCompetence);
    InSuffix(InputFilters(input.person, input.personCompetence), 2, FilterFor(field, Value(p, field).value));
  }

  lemma InSuffix(fs: seq<Filter>, k: nat, x: Filter)
    requires k <= |fs| && x in fs[k..]
    ensures x in fs
  {
    var i :| 0 <= i < |fs[k..]| && fs[k..][i] == x;
    assert fs[k + i] == x;
  }

  function CreateForFirstname(input: SuggestInput): (q: SuggestQuery)
    ensures q.text == (if input.person.Some? && input.person.value.firstname.Some? then input.person.value.firstname.value else "")
    ensures q.filters == InputFilters(input.person, input.personCompetence)
  {
    CreateFor(input, Firstname)
  }

  function CreateForLastname(input: SuggestInput): (q: SuggestQuery)
    ensures q.text == (if input.person.Some? && input.person.value.lastname.Some? then input.person.value.lastname.value else "")
    ensures q.filters == InputFilters(input.person, input.personCompetence)
  {
    CreateFor(input, Lastname)
  }

  function CreateForProduct(input: SuggestInput): (q: SuggestQuery)
    ensures q.text == (if input.person.Some? && input.person.value.product.Some? then input.person.value.product.value else "")
    ensures q.filters == InputFilters(input.person, input.personCompetence)
  {
    CreateFor(input, Product)
  }

  function CreateForFunction(input: SuggestInput): (q: SuggestQuery)
    ensures q.text == (if input.person.Some? && input.person.value.personFunction.Some? then input.person.value.personFunction.value else "")
    ensures q.filters == InputFilters(input.person, input.personCompetence)
  {
    CreateFor(input, Function)
  }

  function CreateForOrganisation(input: SuggestInput): (q: SuggestQuery)
    ensures q.text == (if input.person.Some? && input.person.value.organisation.Some? then input.person.value.organisation.value else "")
    ensures q.filters == InputFilters(input.person, input.personCompetence)
  {
    CreateFor(input, Organisation)
  }

  function CreateForPhonenumber(input: SuggestInput): (q: SuggestQuery)
    ensures q.text == (if input.person.Some? && input.person.value.phonenumber.Some? then input.person.value.phonenumber.value else "")
    ensures q.filters == InputFilters(input.person, input.personCompetence)
  {
    CreateFor(input, Phonenumber)
  }

  function CreateForAddress(input: SuggestInput): (q: SuggestQuery)
    ensures q.text == (if input.person.Some? && input.person.value.address.Some? then input.person.value.address.value else "")
    ensures q.filters == InputFilters(input.person, input.personCompetence)
  {
    CreateFor(input, Address)
  }

  /** `SearchCitygovPersonQueryFactory::create`: no query text, the input's
      offset and limit or their defaults, the person filters. */
  function Create(input: SearchInput): (q: SearchQuery)
    ensures q.text == ""
    ensures q.lang == input.lang
    ensures q.offset == (if input.offset.Some? then input.offset.value else DEFAULT_OFFSET)
    ensures q.limit == (if input.limit.Some? then input.limit.value else DEFAULT_LIMIT)
    ensures q.filters == InputFilters(input.person, input.personCompetence)
  {
    SearchQuery("", input.lang, input.offset.GetOr(DEFAULT_OFFSET), input.limit.GetOr(DEFAULT_LIMIT),
                InputFilters(input.person, input.personCompetence))
  }

  /** A search and a suggestion for the same person and competence filter
      alike, and with the same limit and language. */
  lemma SearchFiltersLikeSuggest(search: SearchInput, suggest: SuggestInput, field: CitygovPersonField)
    requires search.person == suggest.person && search.personCompetence == suggest.personCompetence
    ensures Create(search).filters == CreateFor(suggest, field).filters
    ensures search.limit == suggest.limit ==> Create(search).limit == CreateFor(suggest, field).limit
    ensures search.lang == suggest.lang ==> Create(search).lang == CreateFor(suggest, field).lang
  {
  }

  /** The test's input: every person field set, language `en`, limit 5. */
  lemma SampleSuggest(competence: Option<CitygovPersonCompetence>)
    ensures var person := CitygovPerson(Some("Max"), Some("Mustermann"), Some("Musterprodukt"), Some("Musterfunktion"),
                                        Some("Musterorganisation"), Some("Musteraddresse"), Some("Mustertelefonnummer"));
            var input := SuggestInput(Some(person), competence, Some(5), Some("en"));
            CreateForFirstname(input).text == "Max" && CreateForAddress(input).text == "Musteraddresse" &&
            CreateForFirstname(input).limit == 5 && CreateForFirstname(input).lang == Some("en")
  {
  }
}
