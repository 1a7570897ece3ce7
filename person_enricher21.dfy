/** `SiteKitSchema21\PersonDocumentEnricher`: the older schema's person
    enricher. Against the newer one its sort value is not transliterated,
    only `sp_citygov_startletter` is written (from the last name, and only
    when there is one), resources are loaded by url alone, loader errors are
    not wrapped, and `content` is not touched. The organisation enricher of
    this schema is not part of this model: its `enrichOrganisationPath` is
    the parameter `enrichPath`, which returns the document it was handed,
    enriched, or raises an error. */
module PersonEnricher21 {
  import opened Wrappers
  import opened Strings
  import opened Resources
  import opened Documents
  import PersonEnricher

  /** `ResourceLoader::load($location)` of this schema: by url alone. */
  type UrlLoader = string -> Result<Resource, Error>

  /** `OrganisationDocumentEnricher::enrichOrganisationPath($organisation, $doc)`. */
  type PathEnricher = (Fields, Resource) -> Result<Fields, Error>

  /** `isIndexable`: every resource is. */
  function IsIndexable(r: Resource): (b: bool)
    ensures b
  {
    true
  }

  /** The sort value: last name, `aaa`, first name, as they are. */
  function SortName(p: PersonData): string {
    p.lastname + "aaa" + p.firstname
  }

  /** The name fields: first and last name and the sort value; the start
      letter is the last name's first character, written only when the last
      name is not `''`. */
  function PersonNamed(f: Fields, p: PersonData): (g: Fields)
    ensures g.spCitygovFirstname == Some(p.firstname) && g.spCitygovLastname == Some(p.lastname)
    ensures g.spSortvalue == Some(p.lastname + "aaa" + p.firstname)
    ensures p.lastname != "" ==> g.spCitygovStartletter == Some([p.lastname[0]])
    ensures p.lastname == "" ==> g.spCitygovStartletter == f.spCitygovStartletter
    ensures g.(spCitygovFirstname := f.spCitygovFirstname, spCitygovLastname := f.spCitygovLastname,
               spSortvalue := f.spSortvalue, spCitygovStartletter := f.spCitygovStartletter) == f
  {
    var named := f.(spCitygovFirstname := Some(p.firstname), spCitygovLastname := Some(p.lastname),
                    spSortvalue := Some(SortName(p)));
    if p.lastname != "" then named.(spCitygovStartletter := Some(FirstChar(p.lastname))) else named
  }

  /** For names without umlauts both schemas give the same sort value. */
  lemma SortNameAgainstSchema2x(p: PersonData)
    requires forall i :: 0 <= i < |p.lastname| ==> !IsUmlaut(p.lastname[i])
    requires forall i :: 0 <= i < |p.firstname| ==> !IsUmlaut(p.firstname[i])
    ensures SortName(p) == PersonEnricher.SortName(p)
  {
    PersonEnricher.SortNameSplit(p);
    TransliterateIdentity(p.lastname);
    TransliterateIdentity(p.firstname);
  }

  /** One membership: skipped without a url; otherwise its organisation is
      loaded by url, its name, non-empty token (dots as spaces) and synonyms
      are collected, and a primary membership has the document replaced by
      the organisation enricher's. */
  function OrganisationStep(s: PersonEnricher.OrganisationScan, m: Membership,
                            load: UrlLoader, enrichPath: PathEnricher): PersonEnricher.OrganisationScan
  {
    match m.organisationUrl
    case None => s
    case Some(url) =>
      match load(url)
      case Err(e) => s.(failure := Some(e))
      case Ok(org) =>
        var names := s.names + [org.organisation.name] + org.organisation.synonymList;
        var tokens := if IsEmpty(org.organisation.token) then s.tokens
                      else s.tokens + [DotsToSpaces(org.organisation.token)];
        if m.primary then
          match enrichPath(s.fields, org)
          case Err(e) => PersonEnricher.OrganisationScan(s.fields, names, tokens, Some(e))
          case Ok(g) => PersonEnricher.OrganisationScan(g, names, tokens, None)
        else PersonEnricher.OrganisationScan(s.fields, names, tokens, None)
  }

  /** The membership loop, stopping at the first error. No token contains a
      dot, there is at most one per membership with a url, and without a
      primary membership the document is not changed. */
  function Organisations(f: Fields, ms: seq<Membership>, load: UrlLoader, enrichPath: PathEnricher)
    : (s: PersonEnricher.OrganisationScan)
    ensures forall i :: 0 <= i < |s.tokens| ==> '.' !in s.tokens[i]
    ensures |s.tokens| <= PersonEnricher.MembershipsWithUrl(ms)
    ensures (forall i :: 0 <= i < |ms| ==> !ms[i].primary) ==> s.fields == f
  {
    if ms == [] then PersonEnricher.OrganisationScan(f, [], [], None)
    else
      var s := Organisations(f, ms[..|ms| - 1], load, enrichPath);
      if s.failure.Some? then s else OrganisationStep(s, ms[|ms| - 1], load, enrichPath)
  }

  lemma {:induction false} OrganisationsStopped(f: Fields, ms: seq<Membership>, j: nat,
                                                load: UrlLoader, enrichPath: PathEnricher)
    requires j <= |ms|
    requires Organisations(f, ms[..j], load, enrichPath).failure.Some?
    ensures Organisations(f, ms, load, enrichPath) == Organisations(f, ms[..j], load, enrichPath)
    decreases |ms| - j
  {
    if j < |ms| {
      var ms' := ms[..|ms| - 1];
      assert ms'[..j] == ms[..j];
      OrganisationsStopped(f, ms', j, load, enrichPath);
    } else {
      assert ms[..j] == ms;
    }
  }

  /** A membership without a url is skipped. */
  lemma OrganisationsSkipUrlLess(f: Fields, ms: seq<Membership>, m: Membership,
                                 load: UrlLoader, enrichPath: PathEnricher)
    requires m.organisationUrl.None?
    ensures Organisations(f, ms + [m], load, enrichPath) == Organisations(f, ms, load, enrichPath)
  {
    assert (ms + [m])[..|ms|] == ms;
  }

  /** A membership whose organisation loads contributes the organisation's
      name followed by its synonyms, and its token with dots turned into
      spaces unless the token is empty, whether or not the path enrichment of
      a primary membership then fails. */
  lemma OrganisationsAppendNames(f: Fields, ms: seq<Membership>, m: Membership,
                                 load: UrlLoader, enrichPath: PathEnricher)
    requires m.organisationUrl.Some? && load(m.organisationUrl.value).Ok?
    requires Organisations(f, ms, load, enrichPath).failure.None?
    ensures var org := load(m.organisationUrl.value).value.organisation;
      var s := Organisations(f, ms, load, enrichPath);
      var s' := Organisations(f, ms + [m], load, enrichPath);
      s'.names == s.names + [org.name] + org.synonymList &&
      s'.tokens == s.tokens + (if IsEmpty(org.token) then [] else [DotsToSpaces(org.token)])
  {
    assert (ms + [m])[..|ms|] == ms;
  }

  /** Without a primary membership the loop collects what the newer
      schema's loop collects when every url is loaded in the language `''`. */
  lemma {:induction false} OrganisationsAgainstSchema2x(f: Fields, ms: seq<Membership>, load: UrlLoader,
                                                        enrichPath: PathEnricher, loadPrimaryPath: PathLoader)
    requires forall i :: 0 <= i < |ms| ==> !ms[i].primary
    ensures Organisations(f, ms, load, enrichPath) ==
      PersonEnricher.Organisations(f, ms, "", (l: Location) => load(l.location), loadPrimaryPath)
  {
    if ms != [] {
      OrganisationsAgainstSchema2x(f, ms[..|ms| - 1], load, enrichPath, loadPrimaryPath);
    }
  }

  /** The competence loop is the newer schema's, with every url loaded by
      itself. */
  function Products(cs: seq<Competence>, load: UrlLoader): PersonEnricher.ProductScan {
    PersonEnricher.Products(cs, "", (l: Location) => load(l.location))
  }

  /** `into` with the four fields written after the membership loop taken
      from `from`. */
  function WithListFieldsOf(into: Fields, from: Fields): Fields {
    into.(spCitygovOrganisation := from.spCitygovOrganisation,
          spCitygovOrganisationtoken := from.spCitygovOrganisationtoken,
          spCitygovProduct := from.spCitygovProduct, spCitygovFunction := from.spCitygovFunction)
  }

  /** `enrichDocumentForPerson`: the document as the source leaves it and the
      loader or organisation-enricher error it lets through unwrapped. After
      the membership loop only the two organisation lists, the product list
      and the function change; without a primary membership nothing but the
      name fields and these four changes. */
  function PersonDocument(f: Fields, r: Resource, load: UrlLoader, enrichPath: PathEnricher): (o: Enriched)
    ensures var s := Organisations(PersonNamed(f, r.person), r.person.membershipList, load, enrichPath);
      o.failure.None? <==> s.failure.None? && Products(r.person.competenceList, load).failure.None?
    ensures var s := Organisations(PersonNamed(f, r.person), r.person.membershipList, load, enrichPath);
      o.failure.Some? && s.failure.Some? ==> o == Enriched(s.fields, s.failure)
    ensures var s := Organisations(PersonNamed(f, r.person), r.person.membershipList, load, enrichPath);
      var q := Products(r.person.competenceList, load);
      s.failure.None? && q.failure.Some? ==>
        o.failure == q.failure &&
        o.fields.spCitygovOrganisation == Some(s.names) &&
        o.fields.spCitygovOrganisationtoken == Some(s.tokens) &&
        o.fields.spCitygovProduct == s.fields.spCitygovProduct &&
        o.fields.spCitygovFunction == s.fields.spCitygovFunction
    ensures var s := Organisations(PersonNamed(f, r.person), r.person.membershipList, load, enrichPath);
      WithListFieldsOf(o.fields, s.fields) == s.fields
    ensures (forall i :: 0 <= i < |r.person.membershipList| ==> !r.person.membershipList[i].primary) ==>
      WithListFieldsOf(o.fields, f).(spCitygovFirstname := f.spCitygovFirstname,
        spCitygovLastname := f.spCitygovLastname, spSortvalue := f.spSortvalue,
        spCitygovStartletter := f.spCitygovStartletter) == f
    ensures o.failure.None? ==>
      var p := r.person;
      var s := Organisations(PersonNamed(f, p), p.membershipList, load, enrichPath);
      o.fields.spCitygovOrganisation == Some(s.names) &&
      o.fields.spCitygovOrganisationtoken == Some(s.tokens) &&
      o.fields.spCitygovProduct == Some(Products(p.competenceList, load).names) &&
      o.fields.spCitygovFunction == Some(Trim(p.functionName + " " + p.functionAppendix))
    ensures (forall i :: 0 <= i < |r.person.membershipList| ==> !r.person.membershipList[i].primary) ==>
      o.fields.spCitygovFirstname == Some(r.person.firstname) &&
      o.fields.spCitygovLastname == Some(r.person.lastname)
    ensures o.failure.None? && (forall i :: 0 <= i < |r.person.membershipList| ==> !r.person.membershipList[i].primary) ==>
      var p := r.person;
      o.fields.spSortvalue == Some(p.lastname + "aaa" + p.firstname) &&
      o.fields.spCitygovStartletter == (if p.lastname != "" then Some([p.lastname[0]]) else f.spCitygovStartletter) &&
      o.fields.spStartletter == f.spStartletter && o.fields.content == f.content
  {
    var p := r.person;
    var s := Organisations(PersonNamed(f, p), p.membershipList, load, enrichPath);
    if s.failure.Some? then Enriched(s.fields, s.failure)
    else
      var g := PersonEnricher.WithOrganisations(s);
      var q := Products(p.competenceList, load);
      if q.failure.Some? then Enriched(g, q.failure)
      else Enriched(g.(spCitygovProduct := Some(q.names), spCitygovFunction := Some(PersonEnricher.FunctionText(p))), None)
  }

  /** The membership loop of `enrichDocumentForPerson`, writing the
      organisation names and tokens when it gets through. */
  method EnrichOrganisations(ms: seq<Membership>, doc: IndexDocument, load: UrlLoader, enrichPath: PathEnricher)
    returns (failure: Option<Error>)
    modifies doc
    ensures var s := Organisations(old(doc.fields), ms, load, enrichPath);
      failure == s.failure &&
      doc.fields == (if failure.Some? then s.fields else PersonEnricher.WithOrganisations(s))
  {
    ghost var f0 := doc.fields;
    var names: seq<string> := [];
    var tokens: seq<string> := [];
    var i := 0;
    while i < |ms|
      invariant 0 <= i <= |ms|
      invariant Organisations(f0, ms[..i], load, enrichPath) == PersonEnricher.OrganisationScan(doc.fields, names, tokens, None)
    {
      assert ms[..i + 1][..i] == ms[..i];
      var m := ms[i];
      if m.organisationUrl.Some? {
        var loaded := load(m.organisationUrl.value);
        if loaded.Err? {
          OrganisationsStopped(f0, ms, i + 1, load, enrichPath);
          assert ms[..|ms|] == ms;
          return Some(loaded.error);
        }
        var org := loaded.value;
        names := names + [org.organisation.name];
        if !IsEmpty(org.organisation.token) {
          tokens := tokens + [DotsToSpaces(org.organisation.token)];
        }
        names := names + org.organisation.synonymList;
        if m.primary {
          var enriched := enrichPath(doc.fields, org);
          if enriched.Err? {
            OrganisationsStopped(f0, ms, i + 1, load, enrichPath);
            assert ms[..|ms|] == ms;
            return Some(enriched.error);
          }
          doc.fields := enriched.value;
        }
      }
      i := i + 1;
    }
    assert ms[..|ms|] == ms;
    doc.fields := doc.fields.(spCitygovOrganisation := Some(names), spCitygovOrganisationtoken := Some(tokens));
    failure := None;
  }

  /** The competence loop of `enrichDocumentForPerson`, writing the product
      names when it gets through. */
  method EnrichProducts(cs: seq<Competence>, doc: IndexDocument, load: UrlLoader)
    returns (failure: Option<Error>)
    modifies doc
    ensures var q := Products(cs, load);
      failure == q.failure &&
      doc.fields == (if failure.Some? then old(doc.fields) else old(doc.fields).(spCitygovProduct := Some(q.names)))
  {
    var names: seq<string> := [];
    var i := 0;
    while i < |cs|
      invariant 0 <= i <= |cs|
      invariant Products(cs[..i], load) == PersonEnricher.ProductScan(names, None)
      invariant doc.fields == old(doc.fields)
    {
      assert cs[..i + 1][..i] == cs[..i];
      var c := cs[i];
      if c.productUrl.Some? {
        var loaded := load(c.productUrl.value);
        if loaded.Err? {
          PersonEnricher.ProductsStopped(cs, i + 1, "", (l: Location) => load(l.location));
          assert cs[..|cs|] == cs;
          return Some(loaded.error);
        }
        names := names + [loaded.value.product.name] + loaded.value.product.synonymList;
      }
      i := i + 1;
    }
    assert cs[..|cs|] == cs;
    doc.fields := doc.fields.(spCitygovProduct := Some(names));
    failure := None;
  }

  /** `enrichDocumentForPerson`. */
  method EnrichDocumentForPerson(resource: Resource, doc: IndexDocument, load: UrlLoader, enrichPath: PathEnricher)
    returns (failure: Option<Error>)
    modifies doc
    ensures Enriched(doc.fields, failure) == PersonDocument(old(doc.fields), resource, load, enrichPath)
  {
    var p := resource.person;
    doc.fields := PersonNamed(doc.fields, p);
    failure := EnrichOrganisations(p.membershipList, doc, load, enrichPath);
    if failure.Some? {
      return;
    }
    failure := EnrichProducts(p.competenceList, doc, load);
    if failure.Some? {
      return;
    }
    doc.fields := doc.fields.(spCitygovFunction := Some(Trim(p.functionName + " " + p.functionAppendix)));
  }

  /** `enrichDocument`: only persons are enriched. */
  method EnrichDocument(resource: Resource, doc: IndexDocument, load: UrlLoader, enrichPath: PathEnricher)
    returns (failure: Option<Error>)
    modifies doc
    ensures resource.objectType != PERSON_TYPE ==> doc.fields == old(doc.fields) && failure.None?
    ensures resource.objectType == PERSON_TYPE ==>
      Enriched(doc.fields, failure) == PersonDocument(old(doc.fields), resource, load, enrichPath)
  {
    failure := None;
    if resource.objectType != PERSON_TYPE {
      return;
    }
    failure := EnrichDocumentForPerson(resource, doc, load, enrichPath);
  }
}
