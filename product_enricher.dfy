/** `SiteKitSchema2x\ProductDocumentEnricher`. Its own `enrichName`
    transliterates before it writes, and its alternative-title documents keep
    the origin's content. */
module ProductEnricher {
  import opened Wrappers
  import opened Strings
  import opened Resources
  import opened Documents
  import opened ChannelAttributesFactory
  import AlternativeDocuments
  import OrganisationEnricher

  const PATH_MESSAGE := "Unable to enrich organisation_path for product"
  const ONLINE_SERVICE_CONTENT_TYPE := "citygovOnlineService"
  const LEIKA_META := "leikanumber"

  /** `enrichName`: the name is transliterated first; a non-empty result is
      the name, the title and (its first character) both start letters; the
      sort value is set in every case, to `''` for an empty name. */
  function ProductNamed(f: Fields, name: string): (g: Fields)
    ensures g.spSortvalue == Some(Transliterate(name))
    ensures IsEmpty(Transliterate(name)) ==> g == f.(spSortvalue := Some(Transliterate(name)))
    ensures !IsEmpty(Transliterate(name)) ==>
      g.spName == Some(Transliterate(name)) && g.spTitle == Some(Transliterate(name)) &&
      g.title == Some(Transliterate(name)) &&
      g.spCitygovStartletter == Some([Transliterate(name)[0]]) &&
      g.spStartletter == Some([Transliterate(name)[0]])
    ensures AlternativeDocuments.WithNameFieldsOf(g, f) == f
  {
    var t := Transliterate(name);
    var named := if IsEmpty(t) then f
      else f.(spName := Some(t), spTitle := Some(t), title := Some(t),
              spCitygovStartletter := Some(FirstChar(t)), spStartletter := Some(FirstChar(t)));
    named.(spSortvalue := Some(t))
  }

  /** For a name without umlauts the product's `enrichName` is the shared
      one, except that it also sets the sort value of an empty name. */
  lemma ProductNamedWithoutUmlauts(f: Fields, name: string)
    requires forall i :: 0 <= i < |name| ==> !IsUmlaut(name[i])
    ensures ProductNamed(f, name) == AlternativeDocuments.NamedFields(f, name).(spSortvalue := Some(name))
  {
    TransliterateIdentity(name);
  }

  method EnrichName(name: string, doc: IndexDocument)
    modifies doc
    ensures doc.fields == ProductNamed(old(doc.fields), name)
  {
    var t := Transliterate(name);
    if !IsEmpty(t) {
      doc.fields := doc.fields.(spName := Some(t), spTitle := Some(t), title := Some(t));
      doc.fields := doc.fields.(spCitygovStartletter := Some(FirstChar(t)));
      doc.fields := doc.fields.(spStartletter := Some(FirstChar(t)));
    }
    doc.fields := doc.fields.(spSortvalue := Some(t));
  }

  /** `enrichLeikaNumber`: non-empty keys become the meta string
      `leikanumber`; no other field changes. */
  function WithLeika(f: Fields, keys: seq<string>): (g: Fields)
    ensures keys == [] ==> g == f
    ensures keys != [] ==> g.metaStrings == f.metaStrings[LEIKA_META := keys]
    ensures g.(metaStrings := f.metaStrings) == f
  {
    if keys == [] then f else f.(metaStrings := f.metaStrings[LEIKA_META := keys])
  }

  method EnrichLeikaNumber(keys: seq<string>, doc: IndexDocument)
    modifies doc
    ensures doc.fields == WithLeika(old(doc.fields), keys)
  {
    if |keys| > 0 {
      doc.fields := doc.fields.(metaStrings := doc.fields.metaStrings[LEIKA_META := keys]);
    }
  }

  /** `enrichOnlineServices`: a non-empty service list appends the content
      type `citygovOnlineService` to the existing ones. */
  function WithOnlineServices(f: Fields, services: Option<OnlineServices>): (g: Fields)
    ensures services.Some? && services.value.serviceListSize > 0 ==>
      g.spContenttype == Some(f.spContenttype.GetOr([]) + [ONLINE_SERVICE_CONTENT_TYPE])
    ensures services.None? || services.value.serviceListSize == 0 ==> g == f
    ensures g.(spContenttype := f.spContenttype) == f
  {
    if services.Some? && services.value.serviceListSize > 0 then
      f.(spContenttype := Some(f.spContenttype.GetOr([]) + [ONLINE_SERVICE_CONTENT_TYPE]))
    else f
  }

  method EnrichOnlineServices(services: Option<OnlineServices>, doc: IndexDocument)
    modifies doc
    ensures doc.fields == WithOnlineServices(old(doc.fields), services)
  {
    if services.Some? && services.value.serviceListSize > 0 {
      doc.fields := doc.fields.(spContenttype := Some(doc.fields.spContenttype.GetOr([]) + [ONLINE_SERVICE_CONTENT_TYPE]));
    }
  }

  /** `enrichSynonyms`: non-empty synonyms are appended to `keywords`; an
      empty list leaves the field as it is, absent or not. */
  function WithSynonyms(f: Fields, synonyms: seq<string>): (g: Fields)
    ensures synonyms == [] ==> g == f
    ensures synonyms != [] ==> g.keywords == Some(f.keywords.GetOr([]) + synonyms)
    ensures g.(keywords := f.keywords) == f
  {
    if synonyms == [] then f else f.(keywords := Some(f.keywords.GetOr([]) + synonyms))
  }

  method EnrichSynonyms(synonyms: seq<string>, doc: IndexDocument)
    modifies doc
    ensures doc.fields == WithSynonyms(old(doc.fields), synonyms)
  {
    if |synonyms| > 0 {
      doc.fields := doc.fields.(keywords := Some(doc.fields.keywords.GetOr([]) + synonyms));
    }
  }

  /** `enrichContent`, given the text the content collector gathered from the
      product's rich text: each whitespace run collapsed to one space, then
      appended to the existing content and trimmed. */
  function WithContent(f: Fields, collected: string): (g: Fields)
    ensures g.content == Some(AppendedContent(f, CollapseWhitespace(collected)))
    ensures g.(content := f.content) == f
  {
    f.(content := Some(AppendedContent(f, CollapseWhitespace(collected))))
  }

  /** The appended text holds the collected text's characters, in order,
      with no two whitespace characters next to each other. */
  lemma ContentWhitespaceCollapsed(f: Fields, collected: string)
    ensures var c := CollapseWhitespace(collected);
      NonSpace(c) == NonSpace(collected) &&
      forall i :: 0 <= i < |c| - 1 ==> !(IsSpace(c[i]) && IsSpace(c[i + 1]))
  {
    CollapseKeepsText(collected);
    CollapsedSpacesAreSingle(collected);
  }

  method EnrichContent(collected: string, doc: IndexDocument)
    modifies doc
    ensures doc.fields == WithContent(old(doc.fields), collected)
  {
    var clean := CollapseWhitespace(collected);
    doc.fields := doc.fields.(content := Some(Trim(doc.fields.content.GetOr("") + " " + clean)));
  }

  /** The organisation url of the first responsibility that is primary and
      has one; `None` when there is none. */
  function PrimaryOrganisationUrl(rs: seq<Responsibility>): (u: Option<string>)
    ensures u.None? <==> forall i :: 0 <= i < |rs| ==> !(rs[i].primary && rs[i].organisationUrl.Some?)
    ensures u.Some? ==>
      exists i :: 0 <= i < |rs| && rs[i].primary && rs[i].organisationUrl == u &&
        forall j :: 0 <= j < i ==> !(rs[j].primary && rs[j].organisationUrl.Some?)
  {
    if rs == [] then None
    else if rs[0].primary && rs[0].organisationUrl.Some? then
      rs[0].organisationUrl
    else
      var u := PrimaryOrganisationUrl(rs[1..]);
      if u.Some? then
        var i :| 0 <= i < |rs[1..]| && rs[1..][i].primary && rs[1..][i].organisationUrl == u &&
          forall j :: 0 <= j < i ==> !(rs[1..][j].primary && rs[1..][j].organisationUrl.Some?);
        assert rs[i + 1] == rs[1..][i];
        assert forall j :: 1 <= j < i + 1 ==> rs[j] == rs[1..][j - 1];
        u
      else
        assert forall j :: 1 <= j < |rs| ==> rs[j] == rs[1..][j - 1];
        u
  }

  /** `enrichOrganisationPath` of a product: the first primary responsibility
      with a url is loaded in the product's language and the organisation
      enricher writes that organisation's path into the document; the loop
      stops there. Without one nothing changes. A load or path failure is
      wrapped with the product's location and a fixed message. Only
      `sp_organisation` and `sp_organisation_path` change. */
  function ProductOrganisationPath(f: Fields, r: Resource, load: Loader, loadPrimaryPath: PathLoader): (o: Enriched)
    ensures PrimaryOrganisationUrl(r.product.responsibilityList).None? ==> o == Enriched(f, None)
    ensures o.failure.Some? ==>
      o.failure.value.DocumentEnriching? && o.failure.value.location == ToLocation(r) &&
      o.failure.value.message == PATH_MESSAGE
    ensures o.fields.(spOrganisation := f.spOrganisation, spOrganisationPath := f.spOrganisationPath) == f
    ensures var u := PrimaryOrganisationUrl(r.product.responsibilityList);
      u.Some? && load(Location(u.value, r.lang)).Ok? ==>
        o.fields.spOrganisation == Some(IntCast(load(Location(u.value, r.lang)).value.id))
    ensures var u := PrimaryOrganisationUrl(r.product.responsibilityList);
      u.Some? ==>
        var l := load(Location(u.value, r.lang));
        (o.failure.None? <==> l.Ok? && loadPrimaryPath(ToLocation(l.value)).Ok?) &&
        (l.Err? ==> o == Enriched(f, Some(DocumentEnriching(ToLocation(r), PATH_MESSAGE, l.error)))) &&
        (o.failure.None? ==>
          o.fields.spOrganisationPath ==
            Some(f.spOrganisationPath.GetOr([]) + OrganisationEnricher.PathIds(loadPrimaryPath(ToLocation(l.value)).value)))
  {
    match PrimaryOrganisationUrl(r.product.responsibilityList)
    case None => Enriched(f, None)
    case Some(url) =>
      match load(Location(url, r.lang))
      case Err(e) => Enriched(f, Some(DocumentEnriching(ToLocation(r), PATH_MESSAGE, e)))
      case Ok(org) =>
        var p := OrganisationEnricher.OrganisationPath(f, org, loadPrimaryPath);
        if p.failure.Some? then
          Enriched(p.fields, Some(DocumentEnriching(ToLocation(r), PATH_MESSAGE, p.failure.value)))
        else p
  }

  /** The loop over the responsibilities, with the delegation updating the
      handed document in place. */
  method EnrichOrganisationPath(resource: Resource, doc: IndexDocument, load: Loader, loadPrimaryPath: PathLoader)
    returns (failure: Option<Error>)
    modifies doc
    ensures Enriched(doc.fields, failure) == ProductOrganisationPath(old(doc.fields), resource, load, loadPrimaryPath)
  {
    var rs := resource.product.responsibilityList;
    failure := None;
    var i := 0;
    while i < |rs|
      invariant 0 <= i <= |rs|
      invariant PrimaryOrganisationUrl(rs) == PrimaryOrganisationUrl(rs[i..])
      invariant doc.fields == old(doc.fields)
    {
      if !rs[i].primary || rs[i].organisationUrl.None? {
        assert rs[i..][1..] == rs[i + 1..];
        i := i + 1;
        continue;
      }
      var loaded := load(Location(rs[i].organisationUrl.value, resource.lang));
      if loaded.Err? {
        return Some(DocumentEnriching(ToLocation(resource), PATH_MESSAGE, loaded.error));
      }
      var e := OrganisationEnricher.EnrichOrganisationPath(loaded.value, doc, loadPrimaryPath);
      if e.Some? {
        return Some(DocumentEnriching(ToLocation(resource), PATH_MESSAGE, e.value));
      }
      break;
    }
  }

  /** The document as the alternative-title documents are cloned from it:
      named, with its leika number, organisation path and online-service
      content type. */
  function BeforeExpansion(f: Fields, r: Resource, load: Loader, loadPrimaryPath: PathLoader): Enriched {
    var p := ProductOrganisationPath(WithLeika(ProductNamed(f, r.product.name), r.product.leikaKeys),
                                     r, load, loadPrimaryPath);
    if p.failure.Some? then p else Enriched(WithOnlineServices(p.fields, r.product.onlineServices), None)
  }

  /** `enrichDocumentForProduct`: name, leika number, organisation path,
      online services, then synonyms and content. A path failure stops the
      enrichment there. `sp_organisation` and `sp_organisation_path` are what
      the path step left, and no field outside those the steps write
      changes. */
  function ProductDocument(f: Fields, r: Resource, collected: string,
                           load: Loader, loadPrimaryPath: PathLoader): (o: Enriched)
    ensures o.failure.Some? ==>
      o.failure.value.DocumentEnriching? && o.failure.value.location == ToLocation(r) &&
      o.failure.value.message == PATH_MESSAGE &&
      o == BeforeExpansion(f, r, load, loadPrimaryPath)
    ensures o.failure.None? <==>
      ProductOrganisationPath(WithLeika(ProductNamed(f, r.product.name), r.product.leikaKeys),
                              r, load, loadPrimaryPath).failure.None?
    ensures var p := ProductOrganisationPath(WithLeika(ProductNamed(f, r.product.name), r.product.leikaKeys),
                                             r, load, loadPrimaryPath);
      o.fields.spOrganisation == p.fields.spOrganisation &&
      o.fields.spOrganisationPath == p.fields.spOrganisationPath
    ensures AlternativeDocuments.WithNameFieldsOf(o.fields, f).(metaStrings := f.metaStrings,
      spOrganisation := f.spOrganisation, spOrganisationPath := f.spOrganisationPath,
      spContenttype := f.spContenttype, keywords := f.keywords, content := f.content) == f
    ensures o.fields.spSortvalue == Some(Transliterate(r.product.name))
    ensures AlternativeDocuments.WithNameFieldsOf(o.fields, ProductNamed(f, r.product.name)) == o.fields
    ensures o.failure.None? ==>
      o.fields.content == Some(AppendedContent(f, CollapseWhitespace(collected))) &&
      o.fields.keywords == (if r.product.synonymList == [] then f.keywords
                            else Some(f.keywords.GetOr([]) + r.product.synonymList)) &&
      o.fields.spContenttype == WithOnlineServices(f, r.product.onlineServices).spContenttype &&
      o.fields.metaStrings == WithLeika(f, r.product.leikaKeys).metaStrings
  {
    var b := BeforeExpansion(f, r, load, loadPrimaryPath);
    if b.failure.Some? then b
    else Enriched(WithContent(WithSynonyms(b.fields, r.product.synonymList), collected), None)
  }

  /** The i-th alternative-title document: the origin renamed by the
      product's `enrichName`, without keywords and description, with id
      `<id>-i` and url `<url>?cg_at_id=i`. Unlike the shared expansion it
      keeps the origin's content. */
  function AlternativeDocument(origin: Fields, name: string, i: nat): (d: Fields)
    ensures d.id == Some(AlternativeDocuments.AlternativeId(origin, i))
    ensures d.url == Some(AlternativeDocuments.AlternativeUrl(origin, i))
    ensures d.keywords.None? && d.description.None? && d.content == origin.content
    ensures AlternativeDocuments.WithNameFieldsOf(d, ProductNamed(origin, name)) == d
    ensures AlternativeDocuments.WithNameFieldsOf(d, origin).(id := origin.id, url := origin.url,
      keywords := origin.keywords, description := origin.description) == origin
  {
    ProductNamed(origin, name).(keywords := None, description := None,
                                id := Some(AlternativeDocuments.AlternativeId(origin, i)),
                                url := Some(AlternativeDocuments.AlternativeUrl(origin, i)))
  }

  /** The documents queued for a list of alternative titles, in list order. */
  function Expansion(origin: Fields, names: seq<string>): (docs: seq<Fields>)
    ensures |docs| == |names|
    ensures forall k :: 0 <= k < |names| ==> docs[k] == AlternativeDocument(origin, names[k], k)
  {
    if names == [] then []
    else Expansion(origin, names[..|names| - 1]) +
         [AlternativeDocument(origin, names[|names| - 1], |names| - 1)]
  }

  /** The expansion of one more name appends that name's document. */
  lemma ExpansionStep(origin: Fields, names: seq<string>, i: nat)
    requires i < |names|
    ensures Expansion(origin, names[..i + 1]) ==
      Expansion(origin, names[..i]) + [AlternativeDocument(origin, names[i], i)]
  {
    assert names[..i + 1][..i] == names[..i];
  }

  /** For a title without umlauts the product's alternative document is the
      shared one with the origin's content kept and the sort value set even
      for an empty title. */
  lemma ExpansionAgainstShared(origin: Fields, names: seq<string>, k: nat)
    requires k < |names|
    requires forall i :: 0 <= i < |names[k]| ==> !IsUmlaut(names[k][i])
    ensures Expansion(origin, names)[k] ==
      AlternativeDocuments.Expansion(origin, names)[k].(content := origin.content, spSortvalue := Some(names[k]))
  {
    ProductNamedWithoutUmlauts(origin, names[k]);
  }

  /** As in the shared expansion, the alternative documents have pairwise
      different ids and urls. */
  lemma ExpansionIdsDistinct(origin: Fields, names: seq<string>, i: nat, j: nat)
    requires i < j < |names|
    ensures Expansion(origin, names)[i].id != Expansion(origin, names)[j].id
    ensures Expansion(origin, names)[i].url != Expansion(origin, names)[j].url
  {
    AlternativeDocuments.ExpansionIdsDistinct(origin, names, i, j);
  }

  /** One pass of the alternative-title loop: the clone of the origin,
      renamed, without keywords and description, with the i-th id and url. */
  method CloneAlternative(origin: IndexDocument, name: string, i: nat) returns (alternative: IndexDocument)
    ensures fresh(alternative) && alternative.fields == AlternativeDocument(origin.fields, name, i)
  {
    alternative := origin.Clone();
    EnrichName(name, alternative);
    alternative.fields := alternative.fields.(keywords := None, description := None,
      id := Some(origin.fields.id.GetOr("") + "-" + DecimalString(i)),
      url := Some(origin.fields.url.GetOr("") + "?cg_at_id=" + DecimalString(i)));
  }

  /** The alternative-title loop: one updater, the clones queued in title
      order, one commit. The origin document is not modified. */
  method AddAlternativeTitles(names: seq<string>, lang: string, origin: IndexDocument, service: IndexService)
    requires |names| > 0
    modifies service
    ensures |service.sessions| == |old(service.sessions)| + 1
    ensures service.sessions[..|old(service.sessions)|] == old(service.sessions)
    ensures var u := service.sessions[|old(service.sessions)|];
      fresh(u) && u.lang == lang && u.commits == 1 && u.queued == Expansion(origin.fields, names)
  {
    var updater := service.Updater(lang);
    for i := 0 to |names|
      invariant fresh(updater) && updater.lang == lang && updater.commits == 0
      invariant service.sessions == old(service.sessions) + [updater]
      invariant updater.queued == Expansion(origin.fields, names[..i])
    {
      var alternative := CloneAlternative(origin, names[i], i);
      updater.AddDocument(alternative);
      ExpansionStep(origin.fields, names, i);
    }
    assert names[..|names|] == names;
    updater.Update();
  }

  /** Whether the alternative titles are expanded: the channel flag is on
      and the product has at least one alternative title. */
  predicate Expands(attributes: ChannelAttributes, r: Resource) {
    attributes.addAlternativeDocuments && |r.product.alternativeNameList| > 0
  }

  /** `enrichDocument`: only products are enriched; every other resource
      leaves the document and the index service as they were. The content
      collector's text for the product is the parameter `collected`. */
  method EnrichDocument(resource: Resource, doc: IndexDocument, attributes: ChannelAttributes,
                        service: IndexService, collected: string, load: Loader, loadPrimaryPath: PathLoader)
    returns (failure: Option<Error>)
    modifies doc, service
    ensures resource.objectType != PRODUCT_TYPE ==>
      doc.fields == old(doc.fields) && service.sessions == old(service.sessions) && failure.None?
    ensures resource.objectType == PRODUCT_TYPE ==>
      Enriched(doc.fields, failure) == ProductDocument(old(doc.fields), resource, collected, load, loadPrimaryPath)
    ensures resource.objectType == PRODUCT_TYPE && failure.None? && Expands(attributes, resource) ==>
      |service.sessions| == |old(service.sessions)| + 1 &&
      var u := service.sessions[|old(service.sessions)|];
      service.sessions[..|old(service.sessions)|] == old(service.sessions) &&
      fresh(u) && u.lang == resource.lang && u.commits == 1 &&
      u.queued == Expansion(BeforeExpansion(old(doc.fields), resource, load, loadPrimaryPath).fields,
                            resource.product.alternativeNameList)
    ensures resource.objectType == PRODUCT_TYPE && (failure.Some? || !Expands(attributes, resource)) ==>
      service.sessions == old(service.sessions)
  {
    failure := None;
    if resource.objectType != PRODUCT_TYPE {
      return;
    }
    EnrichName(resource.product.name, doc);
    EnrichLeikaNumber(resource.product.leikaKeys, doc);
    failure := EnrichOrganisationPath(resource, doc, load, loadPrimaryPath);
    if failure.Some? {
      return;
    }
    EnrichOnlineServices(resource.product.onlineServices, doc);
    if attributes.addAlternativeDocuments && |resource.product.alternativeNameList| > 0 {
      AddAlternativeTitles(resource.product.alternativeNameList, resource.lang, doc, service);
    }
    EnrichSynonyms(resource.product.synonymList, doc);
    EnrichContent(collected, doc);
  }

  // As written, the enricher reads the flag from the property
  // `alternativeTitle`, which `ChannelAttributes` does not declare.

  /** The expansion condition as written: the undeclared property reads as
      `null`, which is not true. */
  predicate ExpandsAsWritten(attributes: ChannelAttributes, r: Resource) {
    Property(attributes, "alternativeTitle") == Some(true) && |r.product.alternativeNameList| > 0
  }

  /** As written no product is ever expanded, while the declared flag expands
      every product with an alternative title. */
  lemma AlternativeTitlesNeverExpanded(attributes: ChannelAttributes, r: Resource)
    ensures !ExpandsAsWritten(attributes, r)
    ensures attributes.addAlternativeDocuments && r.product.alternativeNameList != [] ==> Expands(attributes, r)
  {
    assert "alternativeTitle" != "addAlternativeDocuments" by {
      assert "alternativeTitle"[1] != "addAlternativeDocuments"[1];
    }
  }

  // As written, the responsibility loop assigns the `void` result of the
  // path delegation to the by-reference `$doc`, so the caller's document
  // variable becomes null and `return $doc` fails its return type.

  /** How a run as written ends: with the corrected document and error, or
      with the `TypeError` the catch blocks do not catch. */
  datatype Outcome = Finished(result: Enriched) | Crashed

  /** `enrichDocumentForProduct` as written (with the flag off): a primary
      responsibility whose organisation and path load crash the run. */
  function ProductDocumentAsWritten(f: Fields, r: Resource, collected: string,
                                    load: Loader, loadPrimaryPath: PathLoader): Outcome
  {
    var u := PrimaryOrganisationUrl(r.product.responsibilityList);
    if u.Some? && load(Location(u.value, r.lang)).Ok? &&
       loadPrimaryPath(ToLocation(load(Location(u.value, r.lang)).value)).Ok?
    then Crashed
    else Finished(ProductDocument(f, r, collected, load, loadPrimaryPath))
  }

  /** The discrepancy: every product with a primary responsibility whose
      organisation and path load crashes as written, while the corrected
      enrichment succeeds and gives it that organisation's id. */
  lemma PrimaryResponsibilityCrashes(f: Fields, r: Resource, collected: string,
                                     load: Loader, loadPrimaryPath: PathLoader)
    requires var u := PrimaryOrganisationUrl(r.product.responsibilityList);
      u.Some? && load(Location(u.value, r.lang)).Ok? &&
      loadPrimaryPath(ToLocation(load(Location(u.value, r.lang)).value)).Ok?
    ensures ProductDocumentAsWritten(f, r, collected, load, loadPrimaryPath) == Crashed
    ensures ProductDocument(f, r, collected, load, loadPrimaryPath).failure.None?
    ensures var u := PrimaryOrganisationUrl(r.product.responsibilityList);
      ProductDocument(f, r, collected, load, loadPrimaryPath).fields.spOrganisation ==
        Some(IntCast(load(Location(u.value, r.lang)).value.id))
    ensures var u := PrimaryOrganisationUrl(r.product.responsibilityList);
      var org := load(Location(u.value, r.lang)).value;
      var named := WithLeika(ProductNamed(f, r.product.name), r.product.leikaKeys);
      ProductDocument(f, r, collected, load, loadPrimaryPath).fields.spOrganisationPath ==
        Some(named.spOrganisationPath.GetOr([]) + OrganisationEnricher.PathIds(loadPrimaryPath(ToLocation(org)).value))
  {
  }
}
