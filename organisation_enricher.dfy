/** `SiteKitSchema2x\OrganisationDocumentEnricher`. */
module OrganisationEnricher {
  import opened Wrappers
  import opened Strings
  import opened Resources
  import opened Documents
  import opened AlternativeDocuments

  const PATH_MESSAGE := "Unable to enrich sp_organisation_path"

  /** The `(int)` ids of the resources on a primary path, in path order. */
  function PathIds(path: seq<Resource>): (ids: seq<int>)
    ensures |ids| == |path|
    ensures forall i :: 0 <= i < |path| ==> ids[i] == IntCast(path[i].id)
  {
    if path == [] then [] else PathIds(path[..|path| - 1]) + [IntCast(path[|path| - 1].id)]
  }

  /** `enrichOrganisationPath`: `sp_organisation` is the resource's id as an
      integer, also when the hierarchy loader fails; on success the loaded
      path's ids are appended to the existing `sp_organisation_path`; a loader
      failure is wrapped with the resource's location and a fixed message.
      No other field changes. */
  function OrganisationPath(f: Fields, r: Resource, loadPrimaryPath: PathLoader): (o: Enriched)
    ensures o.fields.spOrganisation == Some(IntCast(r.id))
    ensures o.failure.None? <==> loadPrimaryPath(ToLocation(r)).Ok?
    ensures o.failure.Some? ==>
      o.failure.value == DocumentEnriching(ToLocation(r), PATH_MESSAGE, loadPrimaryPath(ToLocation(r)).error) &&
      o.fields.spOrganisationPath == f.spOrganisationPath
    ensures o.failure.None? ==>
      o.fields.spOrganisationPath ==
        Some(f.spOrganisationPath.GetOr([]) + PathIds(loadPrimaryPath(ToLocation(r)).value))
    ensures o.fields.(spOrganisation := f.spOrganisation, spOrganisationPath := f.spOrganisationPath) == f
  {
    var withId := f.(spOrganisation := Some(IntCast(r.id)));
    match loadPrimaryPath(ToLocation(r))
    case Err(e) => Enriched(withId, Some(DocumentEnriching(ToLocation(r), PATH_MESSAGE, e)))
    case Ok(path) =>
      Enriched(withId.(spOrganisationPath := Some(f.spOrganisationPath.GetOr([]) + PathIds(path))), None)
  }

  method EnrichOrganisationPath(resource: Resource, doc: IndexDocument, loadPrimaryPath: PathLoader)
    returns (failure: Option<Error>)
    modifies doc
    ensures Enriched(doc.fields, failure) == OrganisationPath(old(doc.fields), resource, loadPrimaryPath)
  {
    doc.fields := doc.fields.(spOrganisation := Some(IntCast(resource.id)));
    var loaded := loadPrimaryPath(ToLocation(resource));
    if loaded.Err? {
      return Some(DocumentEnriching(ToLocation(resource), PATH_MESSAGE, loaded.error));
    }
    var ids := PathIds(loaded.value);
    doc.fields := doc.fields.(spOrganisationPath := Some(doc.fields.spOrganisationPath.GetOr([]) + ids));
    failure := None;
  }

  /** The document as the alternative documents are cloned from it: named and
      with its organisation path. */
  function BeforeExpansion(f: Fields, r: Resource, loadPrimaryPath: PathLoader): Enriched {
    OrganisationPath(NamedFields(f, r.organisation.name), r, loadPrimaryPath)
  }

  /** Synonyms appended to `keywords`, the token as a one-element list, and
      the token appended to `content`. */
  function Finished(g: Fields, org: OrganisationData): Fields {
    g.(keywords := Some(g.keywords.GetOr([]) + org.synonymList),
       spCitygovOrganisationtoken := Some([org.token]),
       content := Some(AppendedContent(g, org.token)))
  }

  /** `enrichDocumentForOrganisation`: name fields, organisation path, then
      synonyms appended to `keywords`, the one-element token list, and the
      token appended to `content`. A path failure stops the enrichment after
      the name fields and `sp_organisation` are set. On success the keywords,
      content and path the document had are kept as prefixes. */
  function OrganisationDocument(f: Fields, r: Resource, loadPrimaryPath: PathLoader): (o: Enriched)
    ensures o.failure.None? <==> loadPrimaryPath(ToLocation(r)).Ok?
    ensures o.failure.Some? ==> o == BeforeExpansion(f, r, loadPrimaryPath)
    ensures o.fields.spOrganisation == Some(IntCast(r.id))
    ensures o.failure.None? ==>
      o.fields.keywords == Some(f.keywords.GetOr([]) + r.organisation.synonymList) &&
      o.fields.spCitygovOrganisationtoken == Some([r.organisation.token]) &&
      o.fields.content == Some(AppendedContent(f, r.organisation.token)) &&
      o.fields.spOrganisationPath ==
        Some(f.spOrganisationPath.GetOr([]) + PathIds(loadPrimaryPath(ToLocation(r)).value))
    ensures WithNameFieldsOf(o.fields, NamedFields(f, r.organisation.name)) == o.fields
    ensures o.failure.None? ==>
      var b := BeforeExpansion(f, r, loadPrimaryPath).fields;
      o.fields.(keywords := b.keywords, spCitygovOrganisationtoken := b.spCitygovOrganisationtoken,
                content := b.content) == b
  {
    var p := BeforeExpansion(f, r, loadPrimaryPath);
    if p.failure.Some? then p
    else Enriched(Finished(p.fields, r.organisation), None)
  }

  /** Whether or not the path loads, a non-empty name is the document's
      name and title, and its transliteration the sort value, whose first
      character is both start letters: 'Örga' sorts as 'Oerga' under 'O'. */
  lemma OrganisationDocumentNamed(f: Fields, r: Resource, loadPrimaryPath: PathLoader)
    requires !IsEmpty(r.organisation.name)
    ensures var o := OrganisationDocument(f, r, loadPrimaryPath).fields;
      var name := r.organisation.name;
      o.spName == Some(name) && o.spTitle == Some(name) && o.title == Some(name) &&
      o.spSortvalue == Some(Transliterate(name)) &&
      o.spStartletter == Some(FirstChar(Transliterate(name))) &&
      o.spCitygovStartletter == Some(FirstChar(Transliterate(name)))
  {
  }

  /** `enrichDocument`: only organisations are enriched; every other resource
      leaves the document and the index service as they were. Alternative
      documents are cloned from the named document with its path, before
      keywords, token and content are added. */
  method EnrichDocument(resource: Resource, doc: IndexDocument, addAlternativeDocuments: bool,
                        service: IndexService, loadPrimaryPath: PathLoader)
    returns (failure: Option<Error>)
    modifies doc, service
    ensures resource.objectType != ORGANISATION_TYPE ==>
      doc.fields == old(doc.fields) && service.sessions == old(service.sessions) && failure.None?
    ensures resource.objectType == ORGANISATION_TYPE ==>
      Enriched(doc.fields, failure) == OrganisationDocument(old(doc.fields), resource, loadPrimaryPath)
    ensures resource.objectType == ORGANISATION_TYPE && failure.None? &&
            addAlternativeDocuments && AlternativeNameList(resource) != [] ==>
      |service.sessions| == |old(service.sessions)| + 1 &&
      var u := service.sessions[|old(service.sessions)|];
      service.sessions[..|old(service.sessions)|] == old(service.sessions) &&
      fresh(u) && u.lang == resource.lang && u.commits == 1 &&
      u.queued == Expansion(BeforeExpansion(old(doc.fields), resource, loadPrimaryPath).fields,
                            AlternativeNameList(resource))
    ensures resource.objectType == ORGANISATION_TYPE &&
            (failure.Some? || !addAlternativeDocuments || AlternativeNameList(resource) == []) ==>
      service.sessions == old(service.sessions)
  {
    failure := None;
    if resource.objectType != ORGANISATION_TYPE {
      return;
    }
    EnrichName(resource.organisation.name, doc);
    failure := EnrichOrganisationPath(resource, doc, loadPrimaryPath);
    if failure.Some? {
      return;
    }
    AddAlternativeDocuments(addAlternativeDocuments, resource, doc, service);
    doc.fields := doc.fields.(keywords := Some(doc.fields.keywords.GetOr([]) + resource.organisation.synonymList));
    doc.fields := doc.fields.(spCitygovOrganisationtoken := Some([resource.organisation.token]));
    doc.fields := doc.fields.(content := Some(AppendedContent(doc.fields, resource.organisation.token)));
  }
}
