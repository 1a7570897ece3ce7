/** `SiteKitSchema2x\PersonDocumentEnricher`. The organisation path of a
    primary membership is written by the organisation enricher, into the same
    document. */
module PersonEnricher {
  import opened Wrappers
  import opened Strings
  import opened Resources
  import opened Documents
  import OrganisationEnricher

  const ORGANISATION_MESSAGE := "Unable to enrich organisation for person"
  const PRODUCTS_MESSAGE := "Unable to enrich products for person"

  /** The state of the membership loop: the document's fields, the collected
      organisation names and tokens, and the error that ended the loop. */
  datatype OrganisationScan = OrganisationScan(
    fields: Fields, names: seq<string>, tokens: seq<string>, failure: Option<Error>)

  /** The state of the competence loop: the collected product names and the
      error that ended the loop. */
  datatype ProductScan = ProductScan(names: seq<string>, failure: Option<Error>)

  /** The number of memberships that name an organisation. */
  function MembershipsWithUrl(ms: seq<Membership>): nat {
    if ms == [] then 0
    else MembershipsWithUrl(ms[..|ms| - 1]) + (if ms[|ms| - 1].organisationUrl.Some? then 1 else 0)
  }

  /** One membership: skipped without a url; otherwise its organisation is
      loaded in the person's language, its name and synonyms are collected, a
      non-empty token is collected with dots turned into spaces, and a
      primary membership has its organisation path written. */
  function OrganisationStep(s: OrganisationScan, m: Membership, lang: string,
                            load: Loader, loadPrimaryPath: PathLoader): OrganisationScan
  {
    match m.organisationUrl
    case None => s
    case Some(url) =>
      match load(Location(url, lang))
      case Err(e) => s.(failure := Some(e))
      case Ok(org) =>
        var names := s.names + [org.organisation.name] + org.organisation.synonymList;
        var tokens := if IsEmpty(org.organisation.token) then s.tokens
                      else s.tokens + [DotsToSpaces(org.organisation.token)];
        if m.primary then
          var p := OrganisationEnricher.OrganisationPath(s.fields, org, loadPrimaryPath);
          OrganisationScan(p.fields, names, tokens, p.failure)
        else OrganisationScan(s.fields, names, tokens, None)
  }

  /** The membership loop over a list, stopping at the first error. Only
      `sp_organisation` and `sp_organisation_path` of the document change, no
      collected token contains a dot, and there is at most one token per
      membership with a url. */
  function Organisations(f: Fields, ms: seq<Membership>, lang: string,
                         load: Loader, loadPrimaryPath: PathLoader): (s: OrganisationScan)
    ensures s.fields.(spOrganisation := f.spOrganisation, spOrganisationPath := f.spOrganisationPath) == f
    ensures forall i :: 0 <= i < |s.tokens| ==> '.' !in s.tokens[i]
    ensures |s.tokens| <= MembershipsWithUrl(ms)
  {
    if ms == [] then OrganisationScan(f, [], [], None)
    else
      var s := Organisations(f, ms[..|ms| - 1], lang, load, loadPrimaryPath);
      if s.failure.Some? then s else OrganisationStep(s, ms[|ms| - 1], lang, load, loadPrimaryPath)
  }

  /** Once the loop has failed, later memberships change nothing. */
  lemma {:induction false} OrganisationsStopped(f: Fields, ms: seq<Membership>, j: nat, lang: string,
                                                load: Loader, loadPrimaryPath: PathLoader)
    requires j <= |ms|
    requires Organisations(f, ms[..j], lang, load, loadPrimaryPath).failure.Some?
    ensures Organisations(f, ms, lang, load, loadPrimaryPath) == Organisations(f, ms[..j], lang, load, loadPrimaryPath)
    decreases |ms| - j
  {
    if j < |ms| {
      var ms' := ms[..|ms| - 1];
      assert ms'[..j] == ms[..j];
      OrganisationsStopped(f, ms', j, lang, load, loadPrimaryPath);
    } else {
      assert ms[..j] == ms;
    }
  }

  /** One more membership is one more step of a loop that has not failed. */
  lemma OrganisationsPrefix(f: Fields, ms: seq<Membership>, i: nat, lang: string,
                            load: Loader, loadPrimaryPath: PathLoader)
    requires i < |ms|
    requires Organisations(f, ms[..i], lang, load, loadPrimaryPath).failure.None?
    ensures Organisations(f, ms[..i + 1], lang, load, loadPrimaryPath) ==
      OrganisationStep(Organisations(f, ms[..i], lang, load, loadPrimaryPath), ms[i], lang, load, loadPrimaryPath)
  {
    assert ms[..i + 1][..i] == ms[..i];
  }

  /** A membership without a url is skipped. */
  lemma OrganisationsSkipUrlLess(f: Fields, ms: seq<Membership>, m: Membership, lang: string,
                                 load: Loader, loadPrimaryPath: PathLoader)
    requires m.organisationUrl.None?
    ensures Organisations(f, ms + [m], lang, load, loadPrimaryPath) == Organisations(f, ms, lang, load, loadPrimaryPath)
  {
    assert (ms + [m])[..|ms|] == ms;
  }

  /** A membership with a url that loads contributes the organisation's name
      followed by its synonyms, after the names collected so far, and its
      token with dots turned into spaces unless the token is empty. */
  lemma OrganisationsAppendNames(f: Fields, ms: seq<Membership>, m: Membership, lang: string,
                                 load: Loader, loadPrimaryPath: PathLoader)
    requires m.organisationUrl.Some? && load(Location(m.organisationUrl.value, lang)).Ok?
    requires Organisations(f, ms, lang, load, loadPrimaryPath).failure.None?
    ensures var org := load(Location(m.organisationUrl.value, lang)).value.organisation;
      Organisations(f, ms + [m], lang, load, loadPrimaryPath).names ==
        Organisations(f, ms, lang, load, loadPrimaryPath).names + [org.name] + org.synonymList
    ensures var org := load(Location(m.organisationUrl.value, lang)).value.organisation;
      Organisations(f, ms + [m], lang, load, loadPrimaryPath).tokens ==
        Organisations(f, ms, lang, load, loadPrimaryPath).tokens +
          (if IsEmpty(org.token) then [] else [DotsToSpaces(org.token)])
  {
    assert (ms + [m])[..|ms|] == ms;
  }

  /** A successful loop whose last membership with a url is primary leaves
      that organisation's id in `sp_organisation` and appends the ids of its
      primary path to the path collected so far. */
  lemma OrganisationsLastPrimary(f: Fields, ms: seq<Membership>, m: Membership, lang: string,
                                 load: Loader, loadPrimaryPath: PathLoader)
    requires m.primary && m.organisationUrl.Some?
    requires Organisations(f, ms + [m], lang, load, loadPrimaryPath).failure.None?
    ensures load(Location(m.organisationUrl.value, lang)).Ok?
    ensures Organisations(f, ms + [m], lang, load, loadPrimaryPath).fields.spOrganisation ==
      Some(IntCast(load(Location(m.organisationUrl.value, lang)).value.id))
    ensures var org := load(Location(m.organisationUrl.value, lang)).value;
      Organisations(f, ms, lang, load, loadPrimaryPath).failure.None? &&
      loadPrimaryPath(ToLocation(org)).Ok? &&
      Organisations(f, ms + [m], lang, load, loadPrimaryPath).fields.spOrganisationPath ==
        Some(Organisations(f, ms, lang, load, loadPrimaryPath).fields.spOrganisationPath.GetOr([]) +
             OrganisationEnricher.PathIds(loadPrimaryPath(ToLocation(org)).value))
  {
    assert (ms + [m])[..|ms|] == ms;
  }

  /** One competence: skipped without a url; otherwise its product is loaded
      in the person's language and its name and synonyms are collected. */
  function ProductStep(s: ProductScan, c: Competence, lang: string, load: Loader): ProductScan {
    match c.productUrl
    case None => s
    case Some(url) =>
      match load(Location(url, lang))
      case Err(e) => s.(failure := Some(e))
      case Ok(product) => ProductScan(s.names + [product.product.name] + product.product.synonymList, None)
  }

  /** The competence loop over a list, stopping at the first error. On
      success every collected name is a name or synonym of a loaded product. */
  function Products(cs: seq<Competence>, lang: string, load: Loader): (s: ProductScan)
    ensures s.failure.None? ==>
      forall n :: n in s.names ==>
        (exists i :: 0 <= i < |cs| && cs[i].productUrl.Some? &&
          load(Location(cs[i].productUrl.value, lang)).Ok? &&
          var p := load(Location(cs[i].productUrl.value, lang)).value.product;
          (n == p.name || n in p.synonymList))
  {
    if cs == [] then ProductScan([], None)
    else
      var s := Products(cs[..|cs| - 1], lang, load);
      if s.failure.Some? then s
      else
        var r := ProductStep(s, cs[|cs| - 1], lang, load);
        assert r.failure.None? ==> forall n :: n in r.names ==> (n in s.names ||
          (cs[|cs| - 1].productUrl.Some? && load(Location(cs[|cs| - 1].productUrl.value, lang)).Ok? &&
           var p := load(Location(cs[|cs| - 1].productUrl.value, lang)).value.product;
           (n == p.name || n in p.synonymList)));
        r
  }

  /** Once the loop has failed, later competences change nothing. */
  lemma {:induction false} ProductsStopped(cs: seq<Competence>, j: nat, lang: string, load: Loader)
    requires j <= |cs|
    requires Products(cs[..j], lang, load).failure.Some?
    ensures Products(cs, lang, load) == Products(cs[..j], lang, load)
    decreases |cs| - j
  {
    if j < |cs| {
      var cs' := cs[..|cs| - 1];
      assert cs'[..j] == cs[..j];
      ProductsStopped(cs', j, lang, load);
    } else {
      assert cs[..j] == cs;
    }
  }

  /** A competence without a url is skipped. */
  lemma ProductsSkipUrlLess(cs: seq<Competence>, c: Competence, lang: string, load: Loader)
    requires c.productUrl.None?
    ensures Products(cs + [c], lang, load) == Products(cs, lang, load)
  {
    assert (cs + [c])[..|cs|] == cs;
  }

  /** A competence whose product loads contributes the product's name
      followed by its synonyms, after the names collected so far; one whose
      product does not load ends the loop with the loader's error. */
  lemma ProductsAppendNames(cs: seq<Competence>, c: Competence, lang: string, load: Loader)
    requires c.productUrl.Some?
    requires Products(cs, lang, load).failure.None?
    ensures var loaded := load(Location(c.productUrl.value, lang));
      loaded.Ok? ==>
        Products(cs + [c], lang, load) ==
          ProductScan(Products(cs, lang, load).names + [loaded.value.product.name] +
                      loaded.value.product.synonymList, None)
    ensures var loaded := load(Location(c.productUrl.value, lang));
      loaded.Err? ==> Products(cs + [c], lang, load).failure == Some(loaded.error)
  {
    assert (cs + [c])[..|cs|] == cs;
  }

  /** The product list of a successful loop is the concatenation of the
      lists of any split of the competences: the flattening is in competence
      order, each competence contributing independently of the others. */
  lemma {:induction false} ProductsConcat(cs1: seq<Competence>, cs2: seq<Competence>, lang: string, load: Loader)
    requires Products(cs1 + cs2, lang, load).failure.None?
    ensures Products(cs1, lang, load).failure.None? && Products(cs2, lang, load).failure.None?
    ensures Products(cs1 + cs2, lang, load).names == Products(cs1, lang, load).names + Products(cs2, lang, load).names
    decreases |cs2|
  {
    if cs2 == [] {
      assert cs1 + cs2 == cs1;
    } else {
      var init := cs2[..|cs2| - 1];
      assert (cs1 + cs2)[..|cs1 + cs2| - 1] == cs1 + init;
      assert (cs1 + cs2)[|cs1 + cs2| - 1] == cs2[|cs2| - 1];
      ProductsConcat(cs1, init, lang, load);
    }
  }

  /** The sort value: last name, `aaa`, first name, transliterated. */
  function SortName(p: PersonData): string {
    Transliterate(p.lastname + "aaa" + p.firstname)
  }

  /** `trim(name . ' ' . appendix)`. */
  function FunctionText(p: PersonData): string {
    Trim(p.functionName + " " + p.functionAppendix)
  }

  /** The name fields of a person: first and last name, the sort value and,
      from its first character, both start letters; no other field changes. */
  function PersonNamed(f: Fields, p: PersonData): (g: Fields)
    ensures g.spCitygovFirstname == Some(p.firstname) && g.spCitygovLastname == Some(p.lastname)
    ensures g.spSortvalue == Some(Transliterate(p.lastname + "aaa" + p.firstname))
    ensures g.spStartletter == g.spCitygovStartletter == Some(FirstChar(Transliterate(p.lastname + "aaa" + p.firstname)))
    ensures g.(spCitygovFirstname := f.spCitygovFirstname, spCitygovLastname := f.spCitygovLastname,
               spSortvalue := f.spSortvalue, spStartletter := f.spStartletter,
               spCitygovStartletter := f.spCitygovStartletter) == f
  {
    var sort := SortName(p);
    f.(spCitygovFirstname := Some(p.firstname), spCitygovLastname := Some(p.lastname),
       spSortvalue := Some(sort),
       spCitygovStartletter := Some(FirstChar(sort)), spStartletter := Some(FirstChar(sort)))
  }

  /** The fields after the membership loop, with the collected lists. */
  function WithOrganisations(s: OrganisationScan): Fields {
    s.fields.(spCitygovOrganisation := Some(s.names), spCitygovOrganisationtoken := Some(s.tokens))
  }

  /** The fields after the function and content step. */
  function WithFunction(g: Fields, p: PersonData): Fields {
    var fn := FunctionText(p);
    g.(spCitygovFunction := Some(fn), content := Some(AppendedContent(g, fn)))
  }

  /** Everything after the membership loop, given how that loop ended: its
      failure wrapped with the organisation message, or the lists written,
      the product loop run (its failure wrapped with the products message),
      and the function and content set. */
  function Concluded(s: OrganisationScan, r: Resource, load: Loader): Enriched {
    if s.failure.Some? then
      Enriched(s.fields, Some(DocumentEnriching(ToLocation(r), ORGANISATION_MESSAGE, s.failure.value)))
    else
      var g := WithOrganisations(s);
      var q := Products(r.person.competenceList, r.lang, load);
      if q.failure.Some? then
        Enriched(g, Some(DocumentEnriching(ToLocation(r), PRODUCTS_MESSAGE, q.failure.value)))
      else
        Enriched(WithFunction(g.(spCitygovProduct := Some(q.names)), r.person), None)
  }

  /** `into` with the twelve fields the person enrichment writes taken from
      `from`. */
  function WithPersonFieldsOf(into: Fields, from: Fields): Fields {
    into.(spCitygovFirstname := from.spCitygovFirstname, spCitygovLastname := from.spCitygovLastname,
          spSortvalue := from.spSortvalue, spStartletter := from.spStartletter,
          spCitygovStartletter := from.spCitygovStartletter,
          spOrganisation := from.spOrganisation, spOrganisationPath := from.spOrganisationPath,
          spCitygovOrganisation := from.spCitygovOrganisation,
          spCitygovOrganisationtoken := from.spCitygovOrganisationtoken,
          spCitygovProduct := from.spCitygovProduct, spCitygovFunction := from.spCitygovFunction,
          content := from.content)
  }

  /** `enrichDocumentForPerson`: the document as the source leaves it, and
      the error raised. The name fields are written first, whatever follows;
      `sp_organisation` and `sp_organisation_path` are what the membership
      loop left. A failure of either loop is wrapped with the person's
      location, that loop's message and the loop's error, and leaves the
      fields of the later steps as they were; on success every field the
      source writes holds its value. No other field changes. */
  function PersonDocument(f: Fields, r: Resource, load: Loader, loadPrimaryPath: PathLoader): (o: Enriched)
    ensures o.failure.Some? ==>
      o.failure.value.DocumentEnriching? && o.failure.value.location == ToLocation(r) &&
      o.failure.value.message in {ORGANISATION_MESSAGE, PRODUCTS_MESSAGE}
    ensures o.failure.None? <==>
      Organisations(PersonNamed(f, r.person), r.person.membershipList, r.lang, load, loadPrimaryPath).failure.None? &&
      Products(r.person.competenceList, r.lang, load).failure.None?
    ensures WithPersonFieldsOf(o.fields, f) == f
    ensures var p := r.person;
      o.fields.spCitygovFirstname == Some(p.firstname) && o.fields.spCitygovLastname == Some(p.lastname) &&
      o.fields.spSortvalue == Some(SortName(p)) &&
      o.fields.spStartletter == Some(FirstChar(SortName(p))) &&
      o.fields.spCitygovStartletter == Some(FirstChar(SortName(p)))
    ensures var s := Organisations(PersonNamed(f, r.person), r.person.membershipList, r.lang, load, loadPrimaryPath);
      o.fields.spOrganisation == s.fields.spOrganisation &&
      o.fields.spOrganisationPath == s.fields.spOrganisationPath
    ensures var s := Organisations(PersonNamed(f, r.person), r.person.membershipList, r.lang, load, loadPrimaryPath);
      s.failure.Some? ==>
        o.failure == Some(DocumentEnriching(ToLocation(r), ORGANISATION_MESSAGE, s.failure.value)) &&
        o.fields.spCitygovOrganisation == f.spCitygovOrganisation &&
        o.fields.spCitygovOrganisationtoken == f.spCitygovOrganisationtoken
    ensures var s := Organisations(PersonNamed(f, r.person), r.person.membershipList, r.lang, load, loadPrimaryPath);
      var q := Products(r.person.competenceList, r.lang, load);
      s.failure.None? && q.failure.Some? ==>
        o.failure == Some(DocumentEnriching(ToLocation(r), PRODUCTS_MESSAGE, q.failure.value)) &&
        o.fields.spCitygovOrganisation == Some(s.names) &&
        o.fields.spCitygovOrganisationtoken == Some(s.tokens)
    ensures o.failure.Some? ==>
      o.fields.spCitygovProduct == f.spCitygovProduct && o.fields.spCitygovFunction == f.spCitygovFunction &&
      o.fields.content == f.content
    ensures o.failure.None? ==>
      var p := r.person;
      var s := Organisations(PersonNamed(f, p), p.membershipList, r.lang, load, loadPrimaryPath);
      o.fields.spCitygovOrganisation == Some(s.names) &&
      o.fields.spCitygovOrganisationtoken == Some(s.tokens) &&
      o.fields.spCitygovProduct == Some(Products(p.competenceList, r.lang, load).names) &&
      o.fields.spCitygovFunction == Some(Trim(p.functionName + " " + p.functionAppendix)) &&
      o.fields.content == Some(AppendedContent(f, Trim(p.functionName + " " + p.functionAppendix)))
  {
    Concluded(Organisations(PersonNamed(f, r.person), r.person.membershipList, r.lang, load, loadPrimaryPath),
              r, load)
  }

  lemma AaaUnchanged(f: string)
    ensures Transliterate("aaa" + f) == "aaa" + Transliterate(f)
  {
    TransliterateConcat("aaa", f);
    assert Transliterate("aaa") == "aaa";
  }

  /** The sort value is the transliterated last name, `aaa`, then the
      transliterated first name. */
  lemma SortNameSplit(p: PersonData)
    ensures SortName(p) == Transliterate(p.lastname) + "aaa" + Transliterate(p.firstname)
  {
    var l, f := p.lastname, p.firstname;
    calc {
      Transliterate(l + "aaa" + f);
      { assert l + "aaa" + f == l + ("aaa" + f); }
      Transliterate(l + ("aaa" + f));
      { TransliterateConcat(l, "aaa" + f); }
      Transliterate(l) + Transliterate("aaa" + f);
      { AaaUnchanged(f); }
      Transliterate(l) + ("aaa" + Transliterate(f));
    }
  }

  /** On success the sort value orders by last name first: it is the
      transliterated last name, `aaa`, then the transliterated first name, and
      both start letters are its first character. */
  lemma PersonSortValue(f: Fields, r: Resource, load: Loader, loadPrimaryPath: PathLoader)
    requires PersonDocument(f, r, load, loadPrimaryPath).failure.None?
    ensures var o := PersonDocument(f, r, load, loadPrimaryPath).fields;
      var p := r.person;
      var sort := Transliterate(p.lastname) + "aaa" + Transliterate(p.firstname);
      o.spSortvalue == Some(sort) &&
      o.spStartletter == Some([sort[0]]) && o.spCitygovStartletter == Some([sort[0]])
  {
    SortNameSplit(r.person);
  }

  /** `enrichPersonOrganisations`, with the primary-membership delegation
      updating the handed document in place. */
  method EnrichPersonOrganisations(resource: Resource, doc: IndexDocument,
                                   load: Loader, loadPrimaryPath: PathLoader)
    returns (failure: Option<Error>)
    modifies doc
    ensures var s := Organisations(old(doc.fields), resource.person.membershipList, resource.lang, load, loadPrimaryPath);
      failure == s.failure &&
      doc.fields == (if failure.Some? then s.fields else WithOrganisations(s))
  {
    var ms := resource.person.membershipList;
    ghost var f0 := doc.fields;
    var names: seq<string> := [];
    var tokens: seq<string> := [];
    var i := 0;
    while i < |ms|
      invariant 0 <= i <= |ms|
      invariant Organisations(f0, ms[..i], resource.lang, load, loadPrimaryPath)
        == OrganisationScan(doc.fields, names, tokens, None)
    {
      OrganisationsPrefix(f0, ms, i, resource.lang, load, loadPrimaryPath);
      var m := ms[i];
      if m.organisationUrl.Some? {
        var loaded := load(Location(m.organisationUrl.value, resource.lang));
        if loaded.Err? {
          OrganisationsStopped(f0, ms, i + 1, resource.lang, load, loadPrimaryPath);
          assert ms[..|ms|] == ms;
          return Some(loaded.error);
        }
        var org := loaded.value;
        names := names + [org.organisation.name];
        if !IsEmpty(org.organisation.token) {
          tokens := tokens + [DotsToSpaces(org.organisation.token)];
        }
        names := names + org.organisation.synonymList;
        if m.primary {
          var e := OrganisationEnricher.EnrichOrganisationPath(org, doc, loadPrimaryPath);
          if e.Some? {
            OrganisationsStopped(f0, ms, i + 1, resource.lang, load, loadPrimaryPath);
            assert ms[..|ms|] == ms;
            return e;
          }
        }
      }
      i := i + 1;
    }
    assert ms[..|ms|] == ms;
    doc.fields := doc.fields.(spCitygovOrganisation := Some(names));
    doc.fields := doc.fields.(spCitygovOrganisationtoken := Some(tokens));
    failure := None;
  }

  /** `enrichPersonProducts`. */
  method EnrichPersonProducts(resource: Resource, doc: IndexDocument, load: Loader)
    returns (failure: Option<Error>)
    modifies doc
    ensures var q := Products(resource.person.competenceList, resource.lang, load);
      failure == q.failure &&
      doc.fields == (if failure.Some? then old(doc.fields) else old(doc.fields).(spCitygovProduct := Some(q.names)))
  {
    var cs := resource.person.competenceList;
    var names: seq<string> := [];
    var i := 0;
    while i < |cs|
      invariant 0 <= i <= |cs|
      invariant Products(cs[..i], resource.lang, load) == ProductScan(names, None)
      invariant doc.fields == old(doc.fields)
    {
      assert cs[..i + 1][..i] == cs[..i];
      var c := cs[i];
      if c.productUrl.Some? {
        var loaded := load(Location(c.productUrl.value, resource.lang));
        if loaded.Err? {
          ProductsStopped(cs, i + 1, resource.lang, load);
          assert cs[..|cs|] == cs;
          return Some(loaded.error);
        }
        names := names + [loaded.value.product.name];
        names := names + loaded.value.product.synonymList;
      }
      i := i + 1;
    }
    assert cs[..|cs|] == cs;
    doc.fields := doc.fields.(spCitygovProduct := Some(names));
    failure := None;
  }

  /** `enrichDocument`: only persons are enriched. */
  method EnrichDocument(resource: Resource, doc: IndexDocument, load: Loader, loadPrimaryPath: PathLoader)
    returns (failure: Option<Error>)
    modifies doc
    ensures resource.objectType != PERSON_TYPE ==> doc.fields == old(doc.fields) && failure.None?
    ensures resource.objectType == PERSON_TYPE ==>
      Enriched(doc.fields, failure) == PersonDocument(old(doc.fields), resource, load, loadPrimaryPath)
  {
    failure := None;
    if resource.objectType != PERSON_TYPE {
      return;
    }
    doc.fields := PersonNamed(doc.fields, resource.person);
    var e := EnrichPersonOrganisations(resource, doc, load, loadPrimaryPath);
    if e.Some? {
      return Some(DocumentEnriching(ToLocation(resource), ORGANISATION_MESSAGE, e.value));
    }
    e := EnrichPersonProducts(resource, doc, load);
    if e.Some? {
      return Some(DocumentEnriching(ToLocation(resource), PRODUCTS_MESSAGE, e.value));
    }
    doc.fields := WithFunction(doc.fields, resource.person);
  }

  // The membership loop as written assigns the `void` result of the path
  // delegation back to `$doc`, leaving the variable null.

  /** How a run of the enricher as written ends: with the document and
      exception the corrected model also gives, or with a PHP `Error`, which
      the `catch (Exception $e)` blocks do not catch. */
  datatype Outcome = Finished(result: Enriched) | Crashed

  /** The membership loop as written: `nulled` says that `$doc` holds null
      (a primary path was written and its `void` result assigned back),
      `crashed` that a later primary membership handed that null to the
      delegation, a `TypeError`. */
  datatype AsWrittenScan = AsWrittenScan(scan: OrganisationScan, nulled: bool, crashed: bool)

  function AsWrittenStep(a: AsWrittenScan, m: Membership, lang: string,
                         load: Loader, loadPrimaryPath: PathLoader): AsWrittenScan
  {
    match m.organisationUrl
    case None => a
    case Some(url) =>
      match load(Location(url, lang))
      case Err(e) => a.(scan := a.scan.(failure := Some(e)))
      case Ok(org) =>
        if m.primary && a.nulled then a.(crashed := true)
        else
          var s := OrganisationStep(a.scan, m, lang, load, loadPrimaryPath);
          AsWrittenScan(s, a.nulled || (m.primary && s.failure.None?), false)
  }

  function OrganisationsAsWritten(f: Fields, ms: seq<Membership>, lang: string,
                                  load: Loader, loadPrimaryPath: PathLoader): AsWrittenScan
  {
    if ms == [] then AsWrittenScan(OrganisationScan(f, [], [], None), false, false)
    else
      var a := OrganisationsAsWritten(f, ms[..|ms| - 1], lang, load, loadPrimaryPath);
      if a.crashed || a.scan.failure.Some? then a
      else AsWrittenStep(a, ms[|ms| - 1], lang, load, loadPrimaryPath)
  }

  /** `enrichDocumentForPerson` as written: a loop that ends with `$doc` null
      crashes when the organisation lists are assigned to it. */
  function PersonDocumentAsWritten(f: Fields, r: Resource, load: Loader, loadPrimaryPath: PathLoader): Outcome {
    var a := OrganisationsAsWritten(PersonNamed(f, r.person), r.person.membershipList, r.lang, load, loadPrimaryPath);
    if a.crashed || (a.scan.failure.None? && a.nulled) then Crashed
    else Finished(Concluded(a.scan, r, load))
  }

  /** Without a primary membership the loop as written is the corrected loop. */
  lemma {:induction false} OrganisationsAsWrittenWithoutPrimary(f: Fields, ms: seq<Membership>, lang: string,
                                                                load: Loader, loadPrimaryPath: PathLoader)
    requires forall i :: 0 <= i < |ms| ==> !ms[i].primary
    ensures OrganisationsAsWritten(f, ms, lang, load, loadPrimaryPath) ==
      AsWrittenScan(Organisations(f, ms, lang, load, loadPrimaryPath), false, false)
  {
    if ms != [] {
      OrganisationsAsWrittenWithoutPrimary(f, ms[..|ms| - 1], lang, load, loadPrimaryPath);
    }
  }

  /** So a person without a primary membership is enriched as corrected. */
  lemma PersonDocumentAsWrittenWithoutPrimary(f: Fields, r: Resource, load: Loader, loadPrimaryPath: PathLoader)
    requires forall i :: 0 <= i < |r.person.membershipList| ==> !r.person.membershipList[i].primary
    ensures PersonDocumentAsWritten(f, r, load, loadPrimaryPath) == Finished(PersonDocument(f, r, load, loadPrimaryPath))
  {
    OrganisationsAsWrittenWithoutPrimary(PersonNamed(f, r.person), r.person.membershipList, r.lang, load, loadPrimaryPath);
  }

  /** The discrepancy: a person whose one membership is primary, with an
      organisation and a path that load, crashes as written, while the
      corrected enrichment gives the document that organisation's id. */
  lemma PrimaryMembershipCrashes(f: Fields, r: Resource, load: Loader, loadPrimaryPath: PathLoader)
    requires |r.person.membershipList| == 1
    requires var m := r.person.membershipList[0];
      m.primary && m.organisationUrl.Some? && load(Location(m.organisationUrl.value, r.lang)).Ok? &&
      loadPrimaryPath(ToLocation(load(Location(m.organisationUrl.value, r.lang)).value)).Ok?
    ensures PersonDocumentAsWritten(f, r, load, loadPrimaryPath) == Crashed
    ensures PersonDocument(f, r, load, loadPrimaryPath).fields.spOrganisation ==
      Some(IntCast(load(Location(r.person.membershipList[0].organisationUrl.value, r.lang)).value.id))
    ensures var org := load(Location(r.person.membershipList[0].organisationUrl.value, r.lang)).value;
      PersonDocument(f, r, load, loadPrimaryPath).fields.spOrganisationPath ==
        Some(PersonNamed(f, r.person).spOrganisationPath.GetOr([]) +
             OrganisationEnricher.PathIds(loadPrimaryPath(ToLocation(org)).value))
  {
    var ms := r.person.membershipList;
    var g := PersonNamed(f, r.person);
    assert ms[..|ms| - 1] == [];
    var a0 := AsWrittenScan(OrganisationScan(g, [], [], None), false, false);
    assert OrganisationsAsWritten(g, ms, r.lang, load, loadPrimaryPath) ==
      AsWrittenStep(a0, ms[0], r.lang, load, loadPrimaryPath);
    assert ms == [] + [ms[0]];
    OrganisationsLastPrimary(g, [], ms[0], r.lang, load, loadPrimaryPath);
  }
}
