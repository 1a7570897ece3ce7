/** `CitygovPersonFilterFactory`: the Solr filter queries that restrict a
    person search or suggestion to persons, and to the persons whose fields
    match the values the caller gave. */
module PersonFilter {
  import opened Wrappers
  import opened Strings
  import opened CompetenceInput

  /** The search library's filters this factory builds. */
  datatype Filter =
    | QueryFilter(query: string)
    | NotFilter(filter: Filter)
    | ContentTypeFilter(types: seq<string>)

  /** The GraphQL input `CitygovPerson`: seven optional search values. */
  datatype CitygovPerson = CitygovPerson(
    firstname: Option<string>,
    lastname: Option<string>,
    product: Option<string>,
    personFunction: Option<string>,  // `function`
    organisation: Option<string>,
    address: Option<string>,
    phonenumber: Option<string>)

  /** The enum `CitygovPersonField`. */
  datatype CitygovPersonField = Firstname | Lastname | Product | Function | Organisation | Address | Phonenumber

  /** `SuggestCitygovPersonInput`. */
  datatype SuggestInput = SuggestInput(
    person: Option<CitygovPerson>,
    personCompetence: Option<CitygovPersonCompetence>,
    limit: Option<int>,
    lang: Option<string>)

  /** `SearchCitygovPersonInput`: the fields the query factory and the tests
      use. */
  datatype SearchInput = SearchInput(
    person: Option<CitygovPerson>,
    personCompetence: Option<CitygovPersonCompetence>,
    offset: Option<int>,
    limit: Option<int>,
    lang: Option<string>)

  /** The fields in the order `createForCitygovPerson` visits them. */
  const FIELDS: seq<CitygovPersonField> := [Firstname, Lastname, Product, Function, Organisation, Address, Phonenumber]

  /** A field's position in `FIELDS`. */
  function Rank(field: CitygovPersonField): (n: nat)
    ensures n < |FIELDS| && FIELDS[n] == field
  {
    match field
    case Firstname => 0
    case Lastname => 1
    case Product => 2
    case Function => 3
    case Organisation => 4
    case Address => 5
    case Phonenumber => 6
  }

  /** The value the input holds for a field. */
  function Value(p: CitygovPerson, field: CitygovPersonField): Option<string> {
    match field
    case Firstname => p.firstname
    case Lastname => p.lastname
    case Product => p.product
    case Function => p.personFunction
    case Organisation => p.organisation
    case Address => p.address
    case Phonenumber => p.phonenumber
  }

  // ---------------------------------------------------------------------------
  // One filter per field
  // ---------------------------------------------------------------------------

  /** The Solr field each input field is searched in. */
  function SolrField(field: CitygovPersonField): (s: string)
    ensures |s| > 12
  {
    match field
    case Firstname => "sp_citygov_firstname"
    case Lastname => "sp_citygov_lastname"
    case Product => "sp_citygov_product"
    case Function => "sp_citygov_function"
    case Organisation => "sp_citygov_organisation"
    case Address => "sp_citygov_address"
    case Phonenumber => "sp_citygov_phone"
  }

  const ORGANISATION_TOKEN_CLAUSE := " OR sp_citygov_organisationtoken:"

  /** `<solrField>:(v* OR v)`: the value as a prefix or as a whole word. */
  function Clause(solrField: string, v: string): string {
    solrField + ":(" + v + "* OR " + v + ")"
  }

  /** An organisation is also searched by its token. */
  function TokenClause(field: CitygovPersonField, v: string): string {
    if field == Organisation then ORGANISATION_TOKEN_CLAUSE + v else ""
  }

  /** `createFilterFor`. */
  function FilterFor(field: CitygovPersonField, v: string): (f: Filter)
    ensures f.QueryFilter?
  {
    QueryFilter(Clause(SolrField(field), v) + TokenClause(field, v))
  }

  /** Two fields whose Solr names agree at positions 11 and 12 (just after
      `sp_citygov_`) are the same field. */
  lemma SolrFieldCode(f: CitygovPersonField, g: CitygovPersonField)
    requires SolrField(f)[11] == SolrField(g)[11] && SolrField(f)[12] == SolrField(g)[12]
    ensures f == g
  {
  }

  /** A clause starts with its Solr field and holds the value right after
      the opening `:(`; its length fixes the value's length. */
  lemma ClauseParts(solrField: string, v: string, extra: string)
    ensures |Clause(solrField, v) + extra| == |solrField| + 2 * |v| + 8 + |extra|
    ensures (Clause(solrField, v) + extra)[..|solrField|] == solrField
    ensures (Clause(solrField, v) + extra)[|solrField| + 2..|solrField| + 2 + |v|] == v
  {
    var pre := solrField + ":(";
    var rest := "* OR " + v + ")" + extra;
    assert Clause(solrField, v) + extra == pre + v + rest;
    assert (pre + v + rest)[|pre|..|pre| + |v|] == v;
    assert (pre + v + rest)[..|solrField|] == solrField;
  }

  /** The value sits right after `<solrField>:(` in the query. */
  lemma ValueInQuery(field: CitygovPersonField, v: string)
    ensures |FilterFor(field, v).query| ==
      |SolrField(field)| + 2 * |v| + 8 + (if field == Organisation then |ORGANISATION_TOKEN_CLAUSE| + |v| else 0)
    ensures FilterFor(field, v).query[11] == SolrField(field)[11]
    ensures FilterFor(field, v).query[12] == SolrField(field)[12]
    ensures FilterFor(field, v).query[|SolrField(field)| + 2..|SolrField(field)| + 2 + |v|] == v
  {
    var s := SolrField(field);
    ClauseParts(s, v, TokenClause(field, v));
    var q := FilterFor(field, v).query;
    assert q[..|s|][11] == s[11] && q[..|s|][12] == s[12];
  }

  /** The first name `Max` is searched as a prefix or as a whole word. */
  lemma SampleFirstname()
    ensures FilterFor(Firstname, "Max") == QueryFilter("sp_citygov_firstname:(Max* OR Max)")
  {
  }

  /** A filter names its field and its value: different fields or different
      values never give the same filter. */
  lemma FilterForInjective(f: CitygovPersonField, g: CitygovPersonField, v: string, w: string)
    requires FilterFor(f, v) == FilterFor(g, w)
    ensures f == g && v == w
  {
    ValueInQuery(f, v);
    ValueInQuery(g, w);
    SolrFieldCode(f, g);
  }

  // ---------------------------------------------------------------------------
  // The filters of a person input
  // ---------------------------------------------------------------------------

  /** The filter of one field: one when the field is set to something other
      than `''` and `'0'`, none otherwise. */
  function FieldFilter(p: CitygovPerson, field: CitygovPersonField): (fs: seq<Filter>)
    ensures |fs| <= 1
    ensures fs != [] <==> !Blank(Value(p, field))
  {
    if IsSet(Value(p, field)) then [FilterFor(field, Value(p, field).value)] else []
  }

  /** What `createForCitygovPerson` returns: at most one filter per field. */
  function PersonFilters(p: CitygovPerson): (fs: seq<Filter>)
    ensures |fs| <= 7
  {
    FieldFilter(p, Firstname) + FieldFilter(p, Lastname) + FieldFilter(p, Product) +
    FieldFilter(p, Function) + FieldFilter(p, Organisation) + FieldFilter(p, Address) +
    FieldFilter(p, Phonenumber)
  }

  /** The fields of `fields` that `p` sets, in the order of `fields`. */
  function SetFieldsOf(p: CitygovPerson, fields: seq<CitygovPersonField>): (r: seq<CitygovPersonField>)
    ensures |r| <= |fields|
    ensures forall f :: f in r <==> f in fields && IsSet(Value(p, f))
  {
    if fields == [] then []
    else
      var last := fields[|fields| - 1];
      SetFieldsOf(p, fields[..|fields| - 1]) + (if IsSet(Value(p, last)) then [last] else [])
  }

  /** The fields `p` sets, in the order of `FIELDS`. */
  function SetFields(p: CitygovPerson): seq<CitygovPersonField> {
    SetFieldsOf(p, FIELDS)
  }

  /** The lists `ff` gives for the given fields, joined in order. */
  function Concat<T>(ff: CitygovPersonField -> seq<T>, fields: seq<CitygovPersonField>): seq<T> {
    if fields == [] then [] else Concat(ff, fields[..|fields| - 1]) + ff(fields[|fields| - 1])
  }

  /** The filters of the given fields, field by field. */
  function FiltersOf(p: CitygovPerson, fields: seq<CitygovPersonField>): seq<Filter> {
    Concat(field => FieldFilter(p, field), fields)
  }

  lemma {:induction false} FiltersOfSetFields(p: CitygovPerson, fields: seq<CitygovPersonField>)
    ensures |FiltersOf(p, fields)| == |SetFieldsOf(p, fields)|
    ensures forall i :: 0 <= i < |SetFieldsOf(p, fields)| ==>
      FiltersOf(p, fields)[i] == FilterFor(SetFieldsOf(p, fields)[i], Value(p, SetFieldsOf(p, fields)[i]).value)
  {
    if fields != [] {
      FiltersOfSetFields(p, fields[..|fields| - 1]);
    }
  }

  /** Filtering a strictly ranked field list keeps it strictly ranked. */
  lemma {:induction false} SetFieldsOfRanked(p: CitygovPerson, fields: seq<CitygovPersonField>)
    requires forall i, j :: 0 <= i < j < |fields| ==> Rank(fields[i]) < Rank(fields[j])
    ensures forall i, j :: 0 <= i < j < |SetFieldsOf(p, fields)| ==>
      Rank(SetFieldsOf(p, fields)[i]) < Rank(SetFieldsOf(p, fields)[j])
  {
    if fields != [] {
      var init := fields[..|fields| - 1];
      SetFieldsOfRanked(p, init);
      var front := SetFieldsOf(p, init);
      forall k | 0 <= k < |front|
        ensures Rank(front[k]) < Rank(fields[|fields| - 1])
      {
        assert front[k] in init;
      }
    }
  }

  lemma ConcatSnoc<T>(ff: CitygovPersonField -> seq<T>, init: seq<CitygovPersonField>, field: CitygovPersonField)
    ensures Concat(ff, init + [field]) == Concat(ff, init) + ff(field)
  {
    assert (init + [field])[..|init|] == init;
  }

  /** Joining over `FIELDS` visits the fields in their order. */
  lemma ConcatFields<T>(ff: CitygovPersonField -> seq<T>)
    ensures Concat(ff, FIELDS) ==
      ff(Firstname) + ff(Lastname) + ff(Product) + ff(Function) + ff(Organisation) + ff(Address) + ff(Phonenumber)
  {
    ConcatSnoc(ff, [], Firstname);
    var t1 := [] + [Firstname];
    ConcatSnoc(ff, t1, Lastname);
    var t2 := t1 + [Lastname];
    ConcatSnoc(ff, t2, Product);
    var t3 := t2 + [Product];
    ConcatSnoc(ff, t3, Function);
    var t4 := t3 + [Function];
    ConcatSnoc(ff, t4, Organisation);
    var t5 := t4 + [Organisation];
    ConcatSnoc(ff, t5, Address);
    var t6 := t5 + [Address];
    ConcatSnoc(ff, t6, Phonenumber);
    var t7 := t6 + [Phonenumber];
    assert t7 == FIELDS;
  }

  /** `PersonFilters` visits the fields in the order of `FIELDS`. */
  lemma PersonFiltersUnrolled(p: CitygovPerson)
    ensures PersonFilters(p) == FiltersOf(p, FIELDS)
  {
    ConcatFields(field => FieldFilter(p, field));
  }

  /** `FIELDS` lists every field once, by rank. */
  lemma FieldsRanked()
    ensures forall i :: 0 <= i < |FIELDS| ==> Rank(FIELDS[i]) == i
  {
  }

  /** `createForCitygovPerson` gives one filter per set field, in the order
      firstname, lastname, product, function, organisation, address,
      phonenumber, and each is the filter of that field's value. */
  lemma PersonFiltersPerSetField(p: CitygovPerson)
    ensures |PersonFilters(p)| == |SetFields(p)| <= |FIELDS|
    ensures forall i :: 0 <= i < |SetFields(p)| ==>
      PersonFilters(p)[i] == FilterFor(SetFields(p)[i], Value(p, SetFields(p)[i]).value)
    ensures forall i, j :: 0 <= i < j < |SetFields(p)| ==> Rank(SetFields(p)[i]) < Rank(SetFields(p)[j])
    ensures forall f :: f in SetFields(p) <==> IsSet(Value(p, f))
  {
    PersonFiltersUnrolled(p);
    FieldsRanked();
    FiltersOfSetFields(p, FIELDS);
    SetFieldsOfRanked(p, FIELDS);
    forall f
      ensures f in SetFields(p) <==> IsSet(Value(p, f))
    {
      assert FIELDS[Rank(f)] == f;
    }
  }

  /** A field's filter is among the person filters exactly when the field is
      set, and then only with the field's own value. */
  lemma PersonFiltersMembership(p: CitygovPerson, field: CitygovPersonField, v: string)
    ensures FilterFor(field, v) in PersonFilters(p) <==> IsSet(Value(p, field)) && Value(p, field).value == v
  {
    PersonFiltersPerSetField(p);
    var fs := SetFields(p);
    if FilterFor(field, v) in PersonFilters(p) {
      var i :| 0 <= i < |PersonFilters(p)| && PersonFilters(p)[i] == FilterFor(field, v);
      FilterForInjective(field, fs[i], v, Value(p, fs[i]).value);
      assert fs[i] in fs;
    }
    if IsSet(Value(p, field)) && Value(p, field).value == v {
      assert field in fs;
      var i :| 0 <= i < |fs| && fs[i] == field;
      assert PersonFilters(p)[i] == FilterFor(field, v);
    }
  }

  /** `createForCitygovPerson`: appends the filter of each set field. */
  method CreateForCitygovPerson(p: CitygovPerson) returns (filters: seq<Filter>)
    ensures filters == PersonFilters(p)
  {
    filters := [];
    if IsSet(p.firstname) {
      filters := filters + [FilterFor(Firstname, p.firstname.value)];
    }
    assert filters == FieldFilter(p, Firstname);
    if IsSet(p.lastname) {
      filters := filters + [FilterFor(Lastname, p.lastname.value)];
    }
    assert filters == FieldFilter(p, Firstname) + FieldFilter(p, Lastname);
    if IsSet(p.product) {
      filters := filters + [FilterFor(Product, p.product.value)];
    }
    assert filters == FieldFilter(p, Firstname) + FieldFilter(p, Lastname) + FieldFilter(p, Product);
    if IsSet(p.personFunction) {
      filters := filters + [FilterFor(Function, p.personFunction.value)];
    }
    assert filters == FieldFilter(p, Firstname) + FieldFilter(p, Lastname) + FieldFilter(p, Product) + FieldFilter(p, Function);
    if IsSet(p.organisation) {
      filters := filters + [FilterFor(Organisation, p.organisation.value)];
    }
    assert filters == FieldFilter(p, Firstname) + FieldFilter(p, Lastname) + FieldFilter(p, Product) + FieldFilter(p, Function) + FieldFilter(p, Organisation);
    if IsSet(p.address) {
      filters := filters + [FilterFor(Address, p.address.value)];
    }
    assert filters == FieldFilter(p, Firstname) + FieldFilter(p, Lastname) + FieldFilter(p, Product) + FieldFilter(p, Function) + FieldFilter(p, Organisation) + FieldFilter(p, Address);
    if IsSet(p.phonenumber) {
      filters := filters + [FilterFor(Phonenumber, p.phonenumber.value)];
    }
    assert filters == PersonFilters(p);
  }

  // ---------------------------------------------------------------------------
  // Competence, and the whole filter list
  // ---------------------------------------------------------------------------

  /** `getIdRangeFilter`, and so `createForCitygovPersonCompetence`: the
      competence input contributes no filter yet. */
  function CompetenceFilters(c: CitygovPersonCompetence): (fs: seq<Filter>)
    ensures fs == []
  {
    []
  }

  /** Persons only, and never a PDF. */
  const BASE_FILTERS := [QueryFilter("sp_contenttype:citygovPerson"), NotFilter(ContentTypeFilter(["pdf"]))]

  /** The filter list of a search or suggestion. */
  function InputFilters(person: Option<CitygovPerson>, competence: Option<CitygovPersonCompetence>): seq<Filter> {
    BASE_FILTERS +
    (if person.Some? then PersonFilters(person.value) else []) +
    (if competence.Some? then CompetenceFilters(competence.value) else [])
  }

  /** Every filter list starts with the two base filters, followed by the
      person filters; the competence input changes nothing. */
  lemma InputFiltersShape(person: Option<CitygovPerson>, competence: Option<CitygovPersonCompetence>)
    ensures |InputFilters(person, competence)| >= 2
    ensures InputFilters(person, competence)[..2] == BASE_FILTERS
    ensures InputFilters(person, competence)[2..] == (if person.Some? then PersonFilters(person.value) else [])
    ensures InputFilters(person, competence) == InputFilters(person, None)
  {
    var fs := InputFilters(person, competence);
    assert fs == BASE_FILTERS + (if person.Some? then PersonFilters(person.value) else []);
  }

  /** Without a person, and whatever the competence, the list is the two
      base filters alone. */
  lemma NoPersonBaseFiltersOnly(competence: Option<CitygovPersonCompetence>)
    ensures InputFilters(None, competence) == BASE_FILTERS
  {
    InputFiltersShape(None, competence);
  }

  method CreateForCitygovPersonCompetence(c: CitygovPersonCompetence) returns (filters: seq<Filter>)
    ensures filters == CompetenceFilters(c)
  {
    filters := [];
  }

  /** `createForCitygovPersonSuggest`. */
  method CreateForCitygovPersonSuggest(input: SuggestInput) returns (filters: seq<Filter>)
    ensures filters == InputFilters(input.person, input.personCompetence)
  {
    filters := BASE_FILTERS;
    if input.person.Some? {
      var pf := CreateForCitygovPerson(input.person.value);
      filters := filters + pf;
    }
    if input.personCompetence.Some? {
      var cf := CreateForCitygovPersonCompetence(input.personCompetence.value);
      filters := filters + cf;
    }
  }

  /** `createForCitygovPersonSearch`: the same list as a suggestion for the
      same person and competence. */
  method CreateForCitygovPersonSearch(input: SearchInput) returns (filters: seq<Filter>)
    ensures filters == InputFilters(input.person, input.personCompetence)
  {
    filters := BASE_FILTERS;
    if input.person.Some? {
      var pf := CreateForCitygovPerson(input.person.value);
      filters := filters + pf;
    }
    if input.personCompetence.Some? {
      var cf := CreateForCitygovPersonCompetence(input.personCompetence.value);
      filters := filters + cf;
    }
  }
}
