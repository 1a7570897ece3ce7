/** The name enrichment and alternative-title expansion shared by the
    organisation enricher (a PHP trait in the source). */
module AlternativeDocuments {
  import opened Wrappers
  import opened Strings
  import opened Resources
  import opened Documents

  /** `into` with the six name fields taken from `from`. */
  function WithNameFieldsOf(into: Fields, from: Fields): Fields {
    into.(spName := from.spName, spTitle := from.spTitle, title := from.title,
          spSortvalue := from.spSortvalue, spStartletter := from.spStartletter,
          spCitygovStartletter := from.spCitygovStartletter)
  }

  /** The name enrichment: an empty name changes nothing; otherwise the three
      title fields get the raw name, the sort value the transliterated name and
      both start letters its first character, which is the first character of
      the transliteration of the name's first character ('Ö' gives 'O').
      No field other than these six changes. */
  function NamedFields(f: Fields, name: string): (g: Fields)
    ensures IsEmpty(name) ==> g == f
    ensures !IsEmpty(name) ==>
      g.spName == Some(name) && g.spTitle == Some(name) && g.title == Some(name) &&
      g.spSortvalue == Some(Transliterate(name)) &&
      g.spCitygovStartletter == Some([TransliterateChar(name[0])[0]]) &&
      g.spStartletter == Some([TransliterateChar(name[0])[0]])
    ensures WithNameFieldsOf(g, f) == f
  {
    if IsEmpty(name) then f
    else
      var t := Transliterate(name);
      f.(spName := Some(name), spTitle := Some(name), title := Some(name),
         spCitygovStartletter := Some(FirstChar(t)), spStartletter := Some(FirstChar(t)),
         spSortvalue := Some(t))
  }

  /** `enrichName($name, $document)`. */
  method EnrichName(name: string, doc: IndexDocument)
    modifies doc
    ensures doc.fields == NamedFields(old(doc.fields), name)
  {
    if !IsEmpty(name) {
      doc.fields := doc.fields.(spName := Some(name), spTitle := Some(name), title := Some(name));
      var t := Transliterate(name);
      doc.fields := doc.fields.(spCitygovStartletter := Some(FirstChar(t)));
      doc.fields := doc.fields.(spStartletter := Some(FirstChar(t)));
      doc.fields := doc.fields.(spSortvalue := Some(t));
    }
  }

  /** `$doc->id . '-' . $i`: the identity of the i-th alternative document. */
  function AlternativeId(origin: Fields, i: nat): string {
    origin.id.GetOr("") + "-" + DecimalString(i)
  }

  /** `$doc->url . '?cg_at_id=' . $i`: the url of the i-th alternative document. */
  function AlternativeUrl(origin: Fields, i: nat): string {
    origin.url.GetOr("") + "?cg_at_id=" + DecimalString(i)
  }

  /** The i-th alternative document: the origin renamed, without keywords,
      description and content, with id `<id>-i` and url `<url>?cg_at_id=i`;
      every other field is the origin's. */
  function AlternativeDocument(origin: Fields, name: string, i: nat): (d: Fields)
    ensures d.id == Some(AlternativeId(origin, i)) && d.url == Some(AlternativeUrl(origin, i))
    ensures d.keywords.None? && d.description.None? && d.content.None?
    ensures WithNameFieldsOf(d, NamedFields(origin, name)) == d
    ensures WithNameFieldsOf(d, origin).(id := origin.id, url := origin.url, keywords := origin.keywords,
      description := origin.description, content := origin.content) == origin
  {
    NamedFields(origin, name).(keywords := None, description := None, content := None,
                               id := Some(AlternativeId(origin, i)),
                               url := Some(AlternativeUrl(origin, i)))
  }

  /** The documents the expansion queues for a list of alternative names, in
      list order. */
  function Expansion(origin: Fields, names: seq<string>): (docs: seq<Fields>)
    ensures |docs| == |names|
    ensures forall k :: 0 <= k < |names| ==> docs[k] == AlternativeDocument(origin, names[k], k)
  {
    if names == [] then []
    else Expansion(origin, names[..|names| - 1]) +
         [AlternativeDocument(origin, names[|names| - 1], |names| - 1)]
  }

  /** The expansion of one more name appends that name's document. */
  lemma ExpansionStep(origin: Fields, names: seq<string>, i: nat)
    requires i < |names|
    ensures Expansion(origin, names[..i + 1]) ==
      Expansion(origin, names[..i]) + [AlternativeDocument(origin, names[i], i)]
  {
    assert names[..i + 1][..i] == names[..i];
  }

  /** Different positions give different decimal renderings. */
  lemma DecimalStringInjective(i: nat, j: nat)
    ensures i != j ==> DecimalString(i) != DecimalString(j)
  {
    IntCastOfDecimal(i);
    IntCastOfDecimal(j);
  }

  /** Every alternative document of an expansion has its own id and its own
      url, so none replaces another in the index. */
  lemma ExpansionIdsDistinct(origin: Fields, names: seq<string>, i: nat, j: nat)
    requires i < j < |names|
    ensures Expansion(origin, names)[i].id != Expansion(origin, names)[j].id
    ensures Expansion(origin, names)[i].url != Expansion(origin, names)[j].url
  {
    var p := origin.id.GetOr("") + "-";
    var q := origin.url.GetOr("") + "?cg_at_id=";
    DecimalStringInjective(i, j);
    assert AlternativeId(origin, i)[|p|..] == DecimalString(i);
    assert AlternativeId(origin, j)[|p|..] == DecimalString(j);
    assert AlternativeUrl(origin, i)[|q|..] == DecimalString(i);
    assert AlternativeUrl(origin, j)[|q|..] == DecimalString(j);
  }

  /** One pass of the expansion loop: the clone of the origin, renamed,
      without keywords, description and content, with the i-th id and url. */
  method CloneAlternative(origin: IndexDocument, name: string, i: nat) returns (alternative: IndexDocument)
    ensures fresh(alternative) && alternative.fields == AlternativeDocument(origin.fields, name, i)
  {
    alternative := origin.Clone();
    EnrichName(name, alternative);
    alternative.fields := alternative.fields.(keywords := None, description := None, content := None);
    alternative.fields := alternative.fields.(id := Some(origin.fields.id.GetOr("") + "-" + DecimalString(i)));
    alternative.fields := alternative.fields.(url := Some(origin.fields.url.GetOr("") + "?cg_at_id=" + DecimalString(i)));
  }

  /** `addAlternativeDocuments($resource, $originDocument)`: with the channel
      flag on and n > 0 alternative names, one updater is requested, n clones
      are queued in name order and one commit follows; otherwise no updater is
      requested. The origin document is not modified. */
  method AddAlternativeDocuments(addAlternativeDocuments: bool, resource: Resource,
                                 origin: IndexDocument, service: IndexService)
    modifies service
    ensures !addAlternativeDocuments || AlternativeNameList(resource) == [] ==>
      service.sessions == old(service.sessions)
    ensures addAlternativeDocuments && AlternativeNameList(resource) != [] ==>
      |service.sessions| == |old(service.sessions)| + 1 &&
      service.sessions[..|old(service.sessions)|] == old(service.sessions) &&
      var u := service.sessions[|old(service.sessions)|];
      fresh(u) && u.lang == resource.lang && u.commits == 1 &&
      u.queued == Expansion(origin.fields, AlternativeNameList(resource))
  {
    if !addAlternativeDocuments {
      return;
    }
    var names := AlternativeNameList(resource);
    if |names| > 0 {
      var updater := service.Updater(resource.lang);
      for i := 0 to |names|
        invariant fresh(updater) && updater.lang == resource.lang && updater.commits == 0
        invariant service.sessions == old(service.sessions) + [updater]
        invariant updater.queued == Expansion(origin.fields, names[..i])
      {
        var alternative := CloneAlternative(origin, names[i], i);
        updater.AddDocument(alternative);
        ExpansionStep(origin.fields, names, i);
      }
      assert names[..|names|] == names;
      updater.Update();
    }
  }
}
