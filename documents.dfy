/** The index document and the index-update session, as the enrichers see
    them. A document is a sparse record of named fields: `None` is a field the
    record does not hold (PHP `null`), `Some(v)` a field set to `v`. */
module Documents {
  import opened Wrappers
  import opened Strings
  import opened Resources

  /** The fields of an `IndexSchema2xDocument` the enrichers read or write,
      each under its Solr name in the comment; `metaStrings` holds the fields
      `setMetaString(name, …)` stores (`sp_meta_string_<name>`). */
  datatype Fields = Fields(
    id: Option<string>,                           // id
    url: Option<string>,                          // url
    title: Option<string>,                        // title
    description: Option<string>,                  // description
    content: Option<string>,                      // content
    keywords: Option<seq<string>>,                // keywords
    spName: Option<string>,                       // sp_name
    spTitle: Option<string>,                      // sp_title
    spSortvalue: Option<string>,                  // sp_sortvalue
    spStartletter: Option<string>,                // sp_startletter
    spCitygovStartletter: Option<string>,         // sp_citygov_startletter
    spContenttype: Option<seq<string>>,           // sp_contenttype
    spOrganisation: Option<int>,                  // sp_organisation
    spOrganisationPath: Option<seq<int>>,         // sp_organisation_path
    spCitygovFirstname: Option<string>,           // sp_citygov_firstname
    spCitygovLastname: Option<string>,            // sp_citygov_lastname
    spCitygovFunction: Option<string>,            // sp_citygov_function
    spCitygovOrganisation: Option<seq<string>>,   // sp_citygov_organisation
    spCitygovOrganisationtoken: Option<seq<string>>, // sp_citygov_organisationtoken
    spCitygovProduct: Option<seq<string>>,        // sp_citygov_product
    spCitygovPhone: Option<seq<string>>,          // sp_citygov_phone
    spCitygovEmail: Option<seq<string>>,          // sp_citygov_email
    spCitygovAddress: Option<string>,             // sp_citygov_address
    metaStrings: map<string, seq<string>>)        // sp_meta_string_*

  /** A document that holds no field. */
  const EMPTY_FIELDS := Fields(None, None, None, None, None, None, None, None, None, None, None, None,
                               None, None, None, None, None, None, None, None, None, None, None, map[])

  /** What an enrichment step leaves: the document's fields, which the step
      has updated in place up to the point where it stopped, and the error it
      raised, if any. */
  datatype Enriched = Enriched(fields: Fields, failure: Option<Error>)

  /** `trim(($doc->content ?? '') . ' ' . $extra)`: the text appended to the
      document's content. */
  function AppendedContent(f: Fields, extra: string): string {
    Trim(f.content.GetOr("") + " " + extra)
  }

  /** An `IndexSchema2xDocument` instance: its fields are updated in place. */
  class IndexDocument {
    var fields: Fields

    constructor (initial: Fields)
      ensures fields == initial
    {
      fields := initial;
    }

    /** `clone($doc)`: a new document with the same fields. */
    method Clone() returns (copy: IndexDocument)
      ensures fresh(copy) && copy.fields == fields
    {
      copy := new IndexDocument(fields);
    }
  }

  /** `SolrIndexUpdater`: the documents queued with `addDocument`, in order,
      and the number of `update()` commits. */
  class IndexUpdater {
    const lang: string
    var queued: seq<Fields>
    var commits: nat

    constructor (lang: string)
      ensures this.lang == lang && queued == [] && commits == 0
    {
      this.lang := lang;
      queued := [];
      commits := 0;
    }

    method AddDocument(doc: IndexDocument)
      modifies this
      ensures queued == old(queued) + [doc.fields] && commits == old(commits)
    {
      queued := queued + [doc.fields];
    }

    method Update()
      modifies this
      ensures queued == old(queued) && commits == old(commits) + 1
    {
      commits := commits + 1;
    }
  }

  /** `SolrIndexService`: remembers every updater it hands out. */
  class IndexService {
    var sessions: seq<IndexUpdater>

    constructor ()
      ensures sessions == []
    {
      sessions := [];
    }

    /** `updater($lang)`: a new, empty update session for a language. */
    method Updater(lang: string) returns (u: IndexUpdater)
      modifies this
      ensures fresh(u) && u.lang == lang && u.queued == [] && u.commits == 0
      ensures sessions == old(sessions) + [u]
    {
      u := new IndexUpdater(lang);
      sessions := sessions + [u];
    }
  }
}
