# CityGov search bundle — a verified model

This project models the core of a bundle that puts a city administration's
persons, organisations and products into a Solr search index and answers
GraphQL searches and suggestions over them. The model covers two groups:

- **Index-document enrichers** (schemas 2.x and 2.1). Each enricher checks the
  resource's object type and writes fields of the index document:
  - names and sort values, with German umlauts transliterated;
  - start letters;
  - the organisation path;
  - flattened lists of related organisations and products, loaded through
    the resource loader;
  - contact data;
  - content.

  Load failures are wrapped in an enrichment error with a fixed message.
  Organisations and products can also be expanded into "alternative title"
  documents, queued on an index updater and committed once.
- **GraphQL query side**:
  - the Solr filter list for a person search or suggestion;
  - the suggestion and search query factories with their defaults;
  - the online-service teaser feature;
  - the competence filter, which compiles a competence input (prefix, tax id,
    file sign, licence plate) into range conditions and selects persons from
    the `CompetenceRange` table.

Documents are records of optional fields (`Documents.Fields`, where `None` is
PHP null). Enrichers are methods on an `IndexDocument` object, each proved
against a function on `Fields`, and the lemmas are about those functions. The
index service and updater are small classes that record the sessions opened,
the documents queued and the commits. The resource loader, hierarchy loader,
link factory and SQLite database are function parameters. SQL conditions are
kept structured, and the `WHERE` clause is a predicate over an in-memory list
of rows. SQLite's text comparison is the BINARY collation.

Modules follow the source files:

- `CompetenceFilter` for `CompetenceFilterFactory`;
- `CompetenceInput`;
- `PersonFilter` for `CitygovPersonFilterFactory`;
- `QueryFactories` for the suggestion and search query factories;
- `OnlineServiceFeatures`;
- `ChannelAttributesFactory`;
- `AlternativeDocuments` for the trait;
- `OrganisationEnricher`, `PersonEnricher`, `ProductEnricher` and
  `ContactPointEnricher` for schema 2.x;
- `PersonEnricher21` and `ContactPointEnricher21` for schema 2.1.

Shared modules: `Strings` (the PHP string functions used), `Resources` (typed
resource records and errors), `Documents` and `Wrappers`.

## Model

| member | source | states |
|---|---|---|
| Strings.TrimStart | src/Service/Indexer/Enricher/SiteKitSchema2x/ContactPointDocumentEnricher.php:109-111 | the left half of PHP `trim`: a suffix of the input that does not start with a space, tab, line feed, carriage return, NUL or vertical tab |
| Strings.TrimEnd | src/Service/Indexer/Enricher/SiteKitSchema2x/ContactPointDocumentEnricher.php:109-111 | the right half: a prefix of the input that does not end with a trim character |
| Strings.SliceBetween | src/Service/Indexer/Enricher/SiteKitSchema2x/ContactPointDocumentEnricher.php:109-111 | cutting trim characters off the front and then off the back leaves one contiguous slice of the input |
| Strings.Trim | src/Service/Indexer/Enricher/SiteKitSchema2x/ContactPointDocumentEnricher.php:109-111 | PHP `trim`: `IsTrimmedSlice`, a slice `s[i..i+|r|]` of the input with only trim characters (space, tab, line feed, carriage return, NUL, vertical tab) before and after it, and neither starting nor ending with one |
| Strings.TrimUnchanged | src/Service/Indexer/Enricher/SiteKitSchema2x/ContactPointDocumentEnricher.php:109-111 | a string without trim characters at its ends is its own trim |
| Strings.TrimIdempotent | src/Service/Indexer/Enricher/SiteKitSchema2x/PersonDocumentEnricher.php:124-129 | trimming twice is trimming once |
| Strings.IsEmpty | src/Service/Indexer/Enricher/SiteKitSchema2x/PersonDocumentEnricher.php:171 | PHP `empty` on a string: `''` and `'0'` |
| Strings.FirstChar | src/Service/Indexer/Enricher/SiteKitSchema2x/AddAlternativeDocumentsTrait.php:63-64 | `mb_substr($s, 0, 1)`: the first character, `''` for the empty string |
| Strings.DotsToSpaces | src/Service/Indexer/Enricher/SiteKitSchema2x/PersonDocumentEnricher.php:172 | `str_replace('.', ' ', $token)`: same length and no dot left |
| Strings.DotsToSpacesAt | src/Service/Indexer/Enricher/SiteKitSchema2x/PersonDocumentEnricher.php:172 | each dot becomes a space and every other character stays in its place |
| Strings.ToLower | src/Factory/ChannelAttributesFactory.php:21-23 | `strtolower`: same length, every ASCII capital lower-cased, everything else kept |
| Strings.ToUpper | src/Service/GraphQL/Factory/CompetenceFilterFactory.php:191 | `strtoupper`: same length, every ASCII small letter upper-cased, everything else kept |
| Strings.TransliterateChar | src/Service/Indexer/Enricher/SiteKitSchema2x/AddAlternativeDocumentsTrait.php:58-62 | each umlaut becomes its two-letter spelling without umlaut; any other character stays |
| Strings.Transliterate | src/Service/Indexer/Enricher/SiteKitSchema2x/AddAlternativeDocumentsTrait.php:58-62 | the transliteration is no shorter than the name and starts with the transliteration of its first character |
| Strings.TransliterateRemovesUmlauts | src/Service/Indexer/Enricher/SiteKitSchema2x/AddAlternativeDocumentsTrait.php:58-62 | no umlaut is left after the replacement |
| Strings.TransliterateIdentity | src/Service/Indexer/Enricher/SiteKitSchema2x/AddAlternativeDocumentsTrait.php:58-62 | a name without umlauts is left as it is |
| Strings.TransliterateConcat | src/Service/Indexer/Enricher/SiteKitSchema2x/PersonDocumentEnricher.php:86-90 | the replacement works on each part of `lastname . 'aaa' . firstname` separately |
| Strings.CollapseWhitespace | src/Service/Indexer/Enricher/SiteKitSchema2x/ProductDocumentEnricher.php:176-180 | `preg_replace('/\s+/', ' ', …)`: empty exactly for empty input; a leading whitespace run becomes one space |
| Strings.CollapseConcat | src/Service/Indexer/Enricher/SiteKitSchema2x/ProductDocumentEnricher.php:176-180 | text ending in a non-whitespace character is collapsed independently of what follows it |
| Strings.CollapseRun | src/Service/Indexer/Enricher/SiteKitSchema2x/ProductDocumentEnricher.php:176-180 | each maximal whitespace run between text becomes exactly one space: `CW(a + w + b) == CW(a) + " " + CW(b)` |
| Strings.CollapsedSpacesArePlain | src/Service/Indexer/Enricher/SiteKitSchema2x/ProductDocumentEnricher.php:176-180 | every whitespace character left is a plain space |
| Strings.CollapsedSpacesAreSingle | src/Service/Indexer/Enricher/SiteKitSchema2x/ProductDocumentEnricher.php:176-180 | no two whitespace characters are left next to each other |
| Strings.CollapseKeepsText | src/Service/Indexer/Enricher/SiteKitSchema2x/ProductDocumentEnricher.php:176-180 | every non-whitespace character is kept, in order |
| Strings.LeadingDigits | src/Service/Indexer/Enricher/SiteKitSchema2x/OrganisationDocumentEnricher.php:89 | the digit prefix `(int)` reads: digits only, and the next character is not a digit |
| Strings.DecimalString | src/Service/Indexer/Enricher/SiteKitSchema2x/AddAlternativeDocumentsTrait.php:39-40 | the index written into an id or url is a non-empty string of digits |
| Strings.IntCast | src/Service/Indexer/Enricher/SiteKitSchema2x/OrganisationDocumentEnricher.php:89 | `(int)` of a string: a negative result only for a leading minus sign after the skipped white space |
| Strings.IntCastOfDecimal | src/Service/Indexer/Enricher/SiteKitSchema2x/AddAlternativeDocumentsTrait.php:39-40 | `(int)` reads the written index back as the index |
| Documents.IndexDocument.Clone | src/Service/Indexer/Enricher/SiteKitSchema2x/AddAlternativeDocumentsTrait.php:32 | `clone($doc)`: a fresh document with the same fields |
| Documents.IndexUpdater.AddDocument | src/Service/Indexer/Enricher/SiteKitSchema2x/AddAlternativeDocumentsTrait.php:41 | the document's fields are queued after the ones before; no commit |
| Documents.IndexUpdater.Update | src/Service/Indexer/Enricher/SiteKitSchema2x/AddAlternativeDocumentsTrait.php:43 | one more commit; the queue is kept |
| Documents.IndexService.Updater | src/Service/Indexer/Enricher/SiteKitSchema2x/AddAlternativeDocumentsTrait.php:30 | a fresh, empty session in the given language is opened and recorded |
| ChannelAttributesFactory.Property | src/ChannelAttributes.php:7-11 | only the declared property `addAlternativeDocuments` reads as a value; any other name reads as null |
| ChannelAttributesFactory.GetBool | src/Factory/ChannelAttributesFactory.php:20 | `getBool`: true exactly for the boolean value true |
| ChannelAttributesFactory.GetString | src/Factory/ChannelAttributesFactory.php:21-23 | `getString`: a string value itself, the default for any other value |
| ChannelAttributesFactory.LowerIsTrue | src/Factory/ChannelAttributesFactory.php:21-24 | `strtolower($s) === 'true'` holds exactly for `true` in any letter case |
| ChannelAttributesFactory.Create | src/Factory/ChannelAttributesFactory.php:18-25 | the flag is on exactly for boolean true and for the string `true` in any letter case |
| ChannelAttributesFactory.CreateExamples | test/Factory/ChannelAttributesFactoryTest.php:52-77 | absent and `false` give off, `true` and `"TRUE"` give on, `"yes"` gives off |
| CompetenceInput.IsSet | src/Service/GraphQL/Input/CitygovPersonCompetence.php:36-41 | `!empty($v)`: set exactly when the value is not blank (null, `''` or `'0'`) |
| CompetenceInput.HasFilter | src/Service/GraphQL/Input/CitygovPersonCompetence.php:33-42 | `hasFilter()` holds exactly when not all six fields are blank |
| CompetenceInput.NoFilterWhenNothingSet | src/Service/GraphQL/Input/CitygovPersonCompetence.php:15-42 | the default input and any input of nulls, `''` and `'0'` have no filter |
| CompetenceInput.AnyFieldSetGivesFilter | src/Service/GraphQL/Input/CitygovPersonCompetence.php:35-41 | setting any one field to a non-empty value gives a filter, whatever the others hold |
| CompetenceFilter.WithTrailingSlash | src/Service/GraphQL/Factory/CompetenceFilterFactory.php:35-36 | the path ends with `/`; it is unchanged exactly when it already did, otherwise one `/` is appended |
| CompetenceFilter.WithTrailingSlashIdempotent | src/Service/GraphQL/Factory/CompetenceFilterFactory.php:35-36 | normalising a normalised path changes nothing |
| CompetenceFilter.AlnumOrSpaces | src/Service/GraphQL/Factory/CompetenceFilterFactory.php:176-183 | the loop keeps each letter or digit and writes one space for any other character, position by position |
| CompetenceFilter.Normalised | src/Service/GraphQL/Factory/CompetenceFilterFactory.php:171-185 | as long as the trimmed input; only capitals, digits and spaces; each position the upper-cased character or a space |
| CompetenceFilter.NormalisedIsUpper | src/Service/GraphQL/Factory/CompetenceFilterFactory.php:190-195 | the second upper-casing of a normalised bound changes nothing |
| CompetenceFilter.TextLessEqReflexive | src/Service/GraphQL/Factory/CompetenceFilterFactory.php:199 | the text comparison of the range test is reflexive |
| CompetenceFilter.TextLessEqTotal | src/Service/GraphQL/Factory/CompetenceFilterFactory.php:199 | any two texts are comparable |
| CompetenceFilter.TextLessEqAntisymmetric | src/Service/GraphQL/Factory/CompetenceFilterFactory.php:199 | texts that compare both ways are equal |
| CompetenceFilter.TextLessEqTransitive | src/Service/GraphQL/Factory/CompetenceFilterFactory.php:199 | the comparison is transitive, so containment of ranges is well behaved |
| CompetenceFilter.RangeCondition | src/Service/GraphQL/Factory/CompetenceFilterFactory.php:187-200 | the condition pins the kind; both bounds are normalised; without an upper bound both bounds are the same value |
| CompetenceFilter.SatisfiesAll | src/Service/GraphQL/Factory/CompetenceFilterFactory.php:60 | the `WHERE` clause: a row satisfies every condition, the conditions joined by `AND` |
| CompetenceFilter.SelectDistinctPersons | src/Service/GraphQL/Factory/CompetenceFilterFactory.php:60-63 | each person at most once, and exactly the persons of rows satisfying every condition |
| CompetenceFilter.Repeat | src/Service/GraphQL/Factory/CompetenceFilterFactory.php:123 | `str_pad` filler: n copies of the pad character |
| CompetenceFilter.Fit | src/Service/GraphQL/Factory/CompetenceFilterFactory.php:120-124 | exactly the width: cut after `width` characters, or padded on the right (on the left for the number) |
| CompetenceFilter.Component | src/Service/GraphQL/Factory/CompetenceFilterFactory.php:115-130 | exactly the width: a set value fitted to it (cut or padded), the default when unset |
| CompetenceFilter.JoinedPlaces | src/Service/GraphQL/Factory/CompetenceFilterFactory.php:165-166 | region, letter and number joined by single spaces keep their places in the 11-character bound |
| CompetenceFilter.PlateFrom | src/Service/GraphQL/Factory/CompetenceFilterFactory.php:115-165 | the lower plate bound is always 11 characters |
| CompetenceFilter.PlateTo | src/Service/GraphQL/Factory/CompetenceFilterFactory.php:115-166 | the upper plate bound is always 11 characters |
| CompetenceFilter.PlateFromBounds | src/Service/GraphQL/Factory/CompetenceFilterFactory.php:115-165 | the lower bound: region, letter, number in places 0-2, 4-5, 7-10, unset parts from `AAA`, `AA`, `0000` |
| CompetenceFilter.PlateToBounds | src/Service/GraphQL/Factory/CompetenceFilterFactory.php:115-166 | the upper bound likewise, unset parts up to `ZZZ`, `ZZ`, `9999` |
| CompetenceFilter.FullPlateIsOnePoint | src/Service/GraphQL/Factory/CompetenceFilterFactory.php:117-166 | parts that fill their width make both bounds the same plate |
| CompetenceFilter.LicensePlateCondition | src/Service/GraphQL/Factory/CompetenceFilterFactory.php:110-169 | a licence-plate condition from the normalised lower bound to the normalised upper bound |
| CompetenceFilter.SqlConditions | src/Service/GraphQL/Factory/CompetenceFilterFactory.php:71-108 | at most four conditions, one per optional block |
| CompetenceFilter.ScalarCondition | src/Service/GraphQL/Factory/CompetenceFilterFactory.php:78-95 | a non-null prefix, tin or file gives exactly one condition of its kind; null gives none |
| CompetenceFilter.PlateCondition | src/Service/GraphQL/Factory/CompetenceFilterFactory.php:96-106 | one licence-plate condition exactly when region, number or letter is not null |
| CompetenceFilter.SqlConditionsEmptyIff | src/Service/GraphQL/Factory/CompetenceFilterFactory.php:71-108 | there are no conditions exactly when the input has no filter |
| CompetenceFilter.RanksRise | src/Service/GraphQL/Factory/CompetenceFilterFactory.php:78-107 | the optional conditions appended in the source's order come out in rising kind order |
| CompetenceFilter.SqlConditionsOrdered | src/Service/GraphQL/Factory/CompetenceFilterFactory.php:76-107 | conditions come in the order prefix, tin, file, licence plate, each kind at most once |
| CompetenceFilter.TwoKindsNoRow | src/Service/GraphQL/Factory/CompetenceFilterFactory.php:199 | a row has one kind, so conditions on two kinds select nobody |
| CompetenceFilter.TwoKindsSelectNobody | src/Service/GraphQL/Factory/CompetenceFilterFactory.php:60 | all conditions are ANDed on one row: an input with two or more kinds set selects nobody |
| CompetenceFilter.FilteredPersons | src/Service/GraphQL/Factory/CompetenceFilterFactory.php:53-66 | null exactly when there is no filter or the statement fails; otherwise the selected persons, possibly none |
| CompetenceFilter.SelectNobody | src/Service/GraphQL/Factory/CompetenceFilterFactory.php:60-63 | a condition no row satisfies gives the empty list |
| CompetenceFilter.SelectOneRow | src/Service/GraphQL/Factory/CompetenceFilterFactory.php:60-63 | a condition only one row satisfies gives that row's person |
| CompetenceFilter.OnlyPrefix | src/Service/GraphQL/Factory/CompetenceFilterFactory.php:78-83 | a prefix alone gives one prefix condition |
| CompetenceFilter.OnlyTin | src/Service/GraphQL/Factory/CompetenceFilterFactory.php:84-89 | a tin alone gives one tin condition |
| CompetenceFilter.OnlyFile | src/Service/GraphQL/Factory/CompetenceFilterFactory.php:90-95 | a file alone gives one file condition |
| CompetenceFilter.OnlyPlate | src/Service/GraphQL/Factory/CompetenceFilterFactory.php:96-106 | licence-plate parts alone give one licence-plate condition |
| CompetenceFilter.NormalisedAs | src/Service/GraphQL/Factory/CompetenceFilterFactory.php:171-185 | a value of letters, digits and inner spaces normalises to itself upper-cased |
| CompetenceFilter.SampleRowsPrefix | test/Service/GraphQL/Factory/CompetenceFilterFactoryTest.php:105-106 | of the four stored rows only the prefix row `A`..`H` contains `B`; none contains `XYZ` |
| CompetenceFilter.SampleRowsOthers | test/Service/GraphQL/Factory/CompetenceFilterFactoryTest.php:107-108 | only the tin row contains `ST25`, only the file row contains `F I` |
| CompetenceFilter.SampleRowsPlateMatch | test/Service/GraphQL/Factory/CompetenceFilterFactoryTest.php:109 | only the plate row `MSA BB 0010`..`MZZ HH, 0050` contains `MSA HA 0025`..`MSZ HZ 0025` |
| CompetenceFilter.SampleRowsPlateNoMatch | test/Service/GraphQL/Factory/CompetenceFilterFactoryTest.php:109 | no row contains `MSA AA 0000`..`MSZ AA 9999` |
| CompetenceFilter.SampleRowsPlateLong | test/Service/GraphQL/Factory/CompetenceFilterFactoryTest.php:109 | only the plate row contains the one plate `MSA HI 2567` |
| CompetenceFilter.NormalisedB | test/Service/GraphQL/Factory/CompetenceFilterFactoryTest.php:39-45 | `b` is searched as `B` |
| CompetenceFilter.NormalisedXyz | test/Service/GraphQL/Factory/CompetenceFilterFactoryTest.php:47-53 | `xyz` is searched as `XYZ` |
| CompetenceFilter.NormalisedSt25 | test/Service/GraphQL/Factory/CompetenceFilterFactoryTest.php:54-61 | `ST25` is searched as itself |
| CompetenceFilter.NormalisedFI | test/Service/GraphQL/Factory/CompetenceFilterFactoryTest.php:62-68 | `f-i` is searched as `F I` |
| CompetenceFilter.PlateFromMsH25 | test/Service/GraphQL/Factory/CompetenceFilterFactoryTest.php:70-79 | `ms`/`h`/`25` start at `msA hA 0025` |
| CompetenceFilter.PlateToMsH25 | test/Service/GraphQL/Factory/CompetenceFilterFactoryTest.php:70-79 | `ms`/`h`/`25` end at `msZ hZ 0025` |
| CompetenceFilter.PlateFromMsAa | test/Service/GraphQL/Factory/CompetenceFilterFactoryTest.php:80-88 | `ms`/`aa` start at `msA aa 0000` |
| CompetenceFilter.PlateToMsAa | test/Service/GraphQL/Factory/CompetenceFilterFactoryTest.php:80-88 | `ms`/`aa` end at `msZ aa 9999` |
| CompetenceFilter.PlateFromLong | test/Service/GraphQL/Factory/CompetenceFilterFactoryTest.php:89-98 | `msabc`/`hijk`/`25678` are cut to `msa hi 2567` |
| CompetenceFilter.PlateToLong | test/Service/GraphQL/Factory/CompetenceFilterFactoryTest.php:89-98 | the upper bound is the same cut plate |
| CompetenceFilter.NormalisedMsAh | test/Service/GraphQL/Factory/CompetenceFilterFactoryTest.php:70-79 | the lower bound normalises to `MSA HA 0025` |
| CompetenceFilter.NormalisedMsZh | test/Service/GraphQL/Factory/CompetenceFilterFactoryTest.php:70-79 | the upper bound normalises to `MSZ HZ 0025` |
| CompetenceFilter.NormalisedMsAa | test/Service/GraphQL/Factory/CompetenceFilterFactoryTest.php:80-88 | the lower bound normalises to `MSA AA 0000` |
| CompetenceFilter.NormalisedMsZa | test/Service/GraphQL/Factory/CompetenceFilterFactoryTest.php:80-88 | the upper bound normalises to `MSZ AA 9999` |
| CompetenceFilter.NormalisedMsaHi | test/Service/GraphQL/Factory/CompetenceFilterFactoryTest.php:89-98 | the cut plate normalises to `MSA HI 2567` |
| CompetenceFilter.PrefixB | test/Service/GraphQL/Factory/CompetenceFilterFactoryTest.php:39-45 | prefix `b` gives the single condition prefix `B`..`B` |
| CompetenceFilter.PrefixXyz | test/Service/GraphQL/Factory/CompetenceFilterFactoryTest.php:47-53 | prefix `xyz` gives the single condition prefix `XYZ`..`XYZ` |
| CompetenceFilter.TinSt25 | test/Service/GraphQL/Factory/CompetenceFilterFactoryTest.php:54-61 | tin `ST25` gives the single condition tin `ST25`..`ST25` |
| CompetenceFilter.FileFI | test/Service/GraphQL/Factory/CompetenceFilterFactoryTest.php:62-68 | file `f-i` gives the single condition file `F I`..`F I` |
| CompetenceFilter.PlateMsH25 | test/Service/GraphQL/Factory/CompetenceFilterFactoryTest.php:70-79 | the plate `ms`/`h`/`25` gives the condition `MSA HA 0025`..`MSZ HZ 0025` |
| CompetenceFilter.PlateMsAa | test/Service/GraphQL/Factory/CompetenceFilterFactoryTest.php:80-88 | the plate `ms`/`aa` gives the condition `MSA AA 0000`..`MSZ AA 9999` |
| CompetenceFilter.PlateLong | test/Service/GraphQL/Factory/CompetenceFilterFactoryTest.php:89-98 | the over-long plate gives the condition `MSA HI 2567`..`MSA HI 2567` |
| CompetenceFilter.SelectedBy | src/Service/GraphQL/Factory/CompetenceFilterFactory.php:53-66 | an input whose filter is one condition returns the persons of the rows satisfying it |
| CompetenceFilter.SamplePrefix | test/Service/GraphQL/Factory/CompetenceFilterFactoryTest.php:39-45 | prefix `b` finds person 1001 |
| CompetenceFilter.SamplePrefixNoMatch | test/Service/GraphQL/Factory/CompetenceFilterFactoryTest.php:47-53 | prefix `xyz` finds nobody: an empty list, not null |
| CompetenceFilter.SampleTin | test/Service/GraphQL/Factory/CompetenceFilterFactoryTest.php:54-61 | tin `ST25` finds person 1001 |
| CompetenceFilter.SampleFile | test/Service/GraphQL/Factory/CompetenceFilterFactoryTest.php:62-68 | file `f-i` finds person 1001 |
| CompetenceFilter.SamplePlate | test/Service/GraphQL/Factory/CompetenceFilterFactoryTest.php:70-79 | the plate `ms`/`h`/`25` finds person 1001 |
| CompetenceFilter.SamplePlateNoMatch | test/Service/GraphQL/Factory/CompetenceFilterFactoryTest.php:80-88 | the plate `ms`/`aa` finds nobody |
| CompetenceFilter.SamplePlateLong | test/Service/GraphQL/Factory/CompetenceFilterFactoryTest.php:89-98 | the over-long plate finds person 1001 |
| CompetenceFilter.SampleNoFilter | test/Service/GraphQL/Factory/CompetenceFilterFactoryTest.php:32-37 | an input without filter gives null whatever the table holds |
| CompetenceFilter.CompetenceFilterFactory.constructor | src/Service/GraphQL/Factory/CompetenceFilterFactory.php:30-37 | both directories end with `/` (appended only when missing); no connection yet |
| CompetenceFilter.CompetenceFilterFactory.GetDatabase | src/Service/GraphQL/Factory/CompetenceFilterFactory.php:42-48 | the connection is opened once, on first use, on `sqlite:` + directory + path + name |
| CompetenceFilter.CompetenceFilterFactory.NormaliseToAlphanumeric | src/Service/GraphQL/Factory/CompetenceFilterFactory.php:171-185 | the character loop computes `Normalised` |
| CompetenceFilter.CompetenceFilterFactory.GetConditionRangeBy | src/Service/GraphQL/Factory/CompetenceFilterFactory.php:187-200 | computes `RangeCondition` and leaves the connection open |
| CompetenceFilter.CompetenceFilterFactory.FitComponent | src/Service/GraphQL/Factory/CompetenceFilterFactory.php:115-130 | one plate component: the lower and upper bound `Component` gives |
| CompetenceFilter.CompetenceFilterFactory.GetConditionByLicensePlate | src/Service/GraphQL/Factory/CompetenceFilterFactory.php:110-169 | the plate condition over the lower and upper bounds `PlateFrom` and `PlateTo` |
| CompetenceFilter.CompetenceFilterFactory.GetPersonSqlFilter | src/Service/GraphQL/Factory/CompetenceFilterFactory.php:71-108 | computes `SqlConditions`; the connection is opened only when a condition was built |
| CompetenceFilter.CompetenceFilterFactory.AppendScalarCondition | src/Service/GraphQL/Factory/CompetenceFilterFactory.php:78-83 | appends the scalar condition of a non-null field |
| CompetenceFilter.CompetenceFilterFactory.GetFilteredPersonIdList | src/Service/GraphQL/Factory/CompetenceFilterFactory.php:53-66 | computes `FilteredPersons` on the rows the opened database holds |
| PersonFilter.Rank | src/Service/GraphQL/Input/CitygovPersonField.php:7-16 | each field has its position in the enum's declaration order |
| PersonFilter.SolrField | src/Service/GraphQL/Query/CitygovPersonFilterFactory.php:88-96 | each field's Solr field is a `sp_citygov_` name |
| PersonFilter.SolrFieldCode | src/Service/GraphQL/Query/CitygovPersonFilterFactory.php:88-96 | fields whose Solr names agree in the two characters after `sp_citygov_` are the same field |
| PersonFilter.FilterFor | src/Service/GraphQL/Query/CitygovPersonFilterFactory.php:86-98 | a query filter `<solrField>:(v* OR v)`, with ` OR sp_citygov_organisationtoken:v` for the organisation |
| PersonFilter.ClauseParts | src/Service/GraphQL/Query/CitygovPersonFilterFactory.php:89-96 | the clause starts with the Solr field and `:(`, and holds the value right after |
| PersonFilter.ValueInQuery | src/Service/GraphQL/Query/CitygovPersonFilterFactory.php:86-98 | the value can be read back from the query at a position the field fixes |
| PersonFilter.SampleFirstname | test/Service/GraphQL/Query/CitygovPersonFilterFactoryTest.php:132 | the first name `Max` gives `sp_citygov_firstname:(Max* OR Max)` |
| PersonFilter.FilterForInjective | src/Service/GraphQL/Query/CitygovPersonFilterFactory.php:86-98 | different fields or values never give the same filter |
| PersonFilter.FieldFilter | src/Service/GraphQL/Query/CitygovPersonFilterFactory.php:62-82 | one field's check: at most one filter, and one exactly when the field is not blank |
| PersonFilter.PersonFilters | src/Service/GraphQL/Query/CitygovPersonFilterFactory.php:59-84 | at most seven filters, one per field |
| PersonFilter.SetFieldsOf | src/Service/GraphQL/Query/CitygovPersonFilterFactory.php:59-84 | the fields set to a non-empty value, in order, each at most once |
| PersonFilter.PersonFiltersPerSetField | src/Service/GraphQL/Query/CitygovPersonFilterFactory.php:59-84 | one filter per non-empty field, in the order firstname … phonenumber, each the field's filter for its value |
| PersonFilter.PersonFiltersMembership | src/Service/GraphQL/Query/CitygovPersonFilterFactory.php:59-84 | a field's filter for a value is in the list exactly when the field is set to that value |
| PersonFilter.CreateForCitygovPerson | src/Service/GraphQL/Query/CitygovPersonFilterFactory.php:59-84 | the seven checks compute `PersonFilters` |
| PersonFilter.CompetenceFilters | src/Service/GraphQL/Query/CitygovPersonFilterFactory.php:113-116 | the competence input contributes no filter |
| PersonFilter.InputFilters | src/Service/GraphQL/Query/CitygovPersonFilterFactory.php:22-53 | the two base filters followed by the person's filters; its shape is `InputFiltersShape` |
| PersonFilter.InputFiltersShape | src/Service/GraphQL/Query/CitygovPersonFilterFactory.php:22-35 | the two base filters first, then the person's filters; the competence input changes nothing |
| PersonFilter.NoPersonBaseFiltersOnly | src/Service/GraphQL/Query/CitygovPersonFilterFactory.php:40-53 | without a person only the two base filters remain |
| PersonFilter.CreateForCitygovPersonCompetence | src/Service/GraphQL/Query/CitygovPersonFilterFactory.php:103-106 | returns the (empty) id range filters |
| PersonFilter.CreateForCitygovPersonSuggest | src/Service/GraphQL/Query/CitygovPersonFilterFactory.php:22-35 | computes `InputFilters` of the suggestion input |
| PersonFilter.CreateForCitygovPersonSearch | src/Service/GraphQL/Query/CitygovPersonFilterFactory.php:40-53 | computes `InputFilters` of the search input |
| QueryFactories.SuggestText | src/Service/GraphQL/Query/SuggestCitygovPersonQueryFactory.php:56-64 | the chosen person field, `''` when the person or the field is null |
| QueryFactories.CreateFor | src/Service/GraphQL/Query/SuggestCitygovPersonQueryFactory.php:53-69 | text as chosen, language from the input, filters those of the suggestion input, limit defaulting to 10 |
| QueryFactories.FiltersIndependentOfField | src/Service/GraphQL/Query/SuggestCitygovPersonQueryFactory.php:66 | the filters do not depend on the chosen field |
| QueryFactories.SuggestTextIsFiltered | src/Service/GraphQL/Query/SuggestCitygovPersonQueryFactory.php:53-69 | a non-empty suggestion text is also the value of that field's filter |
| QueryFactories.CreateForFirstname | src/Service/GraphQL/Query/SuggestCitygovPersonQueryFactory.php:18-21 | suggests on the first name |
| QueryFactories.CreateForLastname | src/Service/GraphQL/Query/SuggestCitygovPersonQueryFactory.php:23-26 | suggests on the last name |
| QueryFactories.CreateForProduct | src/Service/GraphQL/Query/SuggestCitygovPersonQueryFactory.php:28-31 | suggests on the product |
| QueryFactories.CreateForFunction | src/Service/GraphQL/Query/SuggestCitygovPersonQueryFactory.php:33-36 | suggests on the function |
| QueryFactories.CreateForOrganisation | src/Service/GraphQL/Query/SuggestCitygovPersonQueryFactory.php:38-41 | suggests on the organisation |
| QueryFactories.CreateForPhonenumber | src/Service/GraphQL/Query/SuggestCitygovPersonQueryFactory.php:43-46 | suggests on the phone number |
| QueryFactories.CreateForAddress | src/Service/GraphQL/Query/SuggestCitygovPersonQueryFactory.php:48-51 | suggests on the address |
| QueryFactories.Create | src/Service/GraphQL/Query/SearchCitygovPersonQueryFactory.php:21-38 | empty text, language from the input, offset defaulting to 0, limit to 10, the search filters |
| QueryFactories.SearchFiltersLikeSuggest | src/Service/GraphQL/Query/CitygovPersonFilterFactory.php:22-53 | search and suggestion give the same filters for the same person and competence |
| QueryFactories.SampleSuggest | test/Service/GraphQL/Query/SuggestCitygovPersonQueryFactoryTest.php:26-78 | the test person gives `Max` and `Musteraddresse`, limit 5 and language `en` |
| OnlineServiceFeatures.ServiceOf | src/Service/GraphQL/Factory/OnlineServiceFeatureFactory.php:41-55 | an item gives at most one service |
| OnlineServiceFeatures.ServiceOfSucceeds | src/Service/GraphQL/Factory/OnlineServiceFeatureFactory.php:41-55 | an item gives its link when url, load and link succeed, and nothing otherwise |
| OnlineServiceFeatures.Services | src/Service/GraphQL/Factory/OnlineServiceFeatureFactory.php:38-56 | at most one service per item |
| OnlineServiceFeatures.SkipsFailure | src/Service/GraphQL/Factory/OnlineServiceFeatureFactory.php:48-56 | a failing item is skipped: dropping it changes nothing |
| OnlineServiceFeatures.AllSucceed | src/Service/GraphQL/Factory/OnlineServiceFeatureFactory.php:38-47 | when every item succeeds there is one service per item, in item order |
| OnlineServiceFeatures.Features | src/Service/GraphQL/Factory/OnlineServiceFeatureFactory.php:30-63 | no feature without online services; otherwise one unlabelled feature holding the services, even when there are none |
| OnlineServiceFeatures.Create | src/Service/GraphQL/Factory/OnlineServiceFeatureFactory.php:30-63 | the load loop computes `Features` |
| OnlineServiceFeatures.SampleOneService | test/Service/GraphQL/Factory/OnlineServiceFeatureFactoryTest.php:39-75 | one item that loads and links gives one feature with that link |
| AlternativeDocuments.NamedFields | src/Service/Indexer/Enricher/SiteKitSchema2x/AddAlternativeDocumentsTrait.php:52-67 | an empty name changes nothing; otherwise raw name as name and titles, transliteration as sort value, its first character as both start letters; nothing else changes |
| AlternativeDocuments.EnrichName | src/Service/Indexer/Enricher/SiteKitSchema2x/AddAlternativeDocumentsTrait.php:52-67 | updates the document to `NamedFields` |
| AlternativeDocuments.AlternativeDocument | src/Service/Indexer/Enricher/SiteKitSchema2x/AddAlternativeDocumentsTrait.php:32-40 | id `<id>-i`, url `<url>?cg_at_id=i`, no keywords, description and content, renamed; every other field the origin's |
| AlternativeDocuments.CloneAlternative | src/Service/Indexer/Enricher/SiteKitSchema2x/AddAlternativeDocumentsTrait.php:32-40 | one loop pass: a fresh clone holding exactly `AlternativeDocument` of the origin |
| AlternativeDocuments.Expansion | src/Service/Indexer/Enricher/SiteKitSchema2x/AddAlternativeDocumentsTrait.php:31-42 | one alternative document per name, in name order |
| AlternativeDocuments.DecimalStringInjective | src/Service/Indexer/Enricher/SiteKitSchema2x/AddAlternativeDocumentsTrait.php:39-40 | different indexes are written differently |
| AlternativeDocuments.ExpansionIdsDistinct | src/Service/Indexer/Enricher/SiteKitSchema2x/AddAlternativeDocumentsTrait.php:39-40 | the alternative documents have pairwise different ids and urls |
| AlternativeDocuments.AddAlternativeDocuments | src/Service/Indexer/Enricher/SiteKitSchema2x/AddAlternativeDocumentsTrait.php:17-45 | flag off or no names: no updater; otherwise one updater, the n clones queued in order, one commit; the origin is not modified |
| OrganisationEnricher.PathIds | src/Service/Indexer/Enricher/SiteKitSchema2x/OrganisationDocumentEnricher.php:96-98 | the `(int)` ids of the path, one per resource, in order |
| OrganisationEnricher.OrganisationPath | src/Service/Indexer/Enricher/SiteKitSchema2x/OrganisationDocumentEnricher.php:85-111 | `sp_organisation` set first; on success the path ids appended to the old path; a failure wrapped with location, fixed message and cause; nothing else changes |
| OrganisationEnricher.EnrichOrganisationPath | src/Service/Indexer/Enricher/SiteKitSchema2x/OrganisationDocumentEnricher.php:85-111 | updates the document and reports the error as `OrganisationPath` says |
| OrganisationEnricher.BeforeExpansion | src/Service/Indexer/Enricher/SiteKitSchema2x/OrganisationDocumentEnricher.php:61-62 | name and organisation path, the steps before the expansion |
| OrganisationEnricher.OrganisationDocument | src/Service/Indexer/Enricher/SiteKitSchema2x/OrganisationDocumentEnricher.php:57-79 | fails exactly when the path fails, named and with its id then; on success keywords + synonyms, the token as a one-element list, the token appended to content, and every other field as the name and path steps left it |
| OrganisationEnricher.OrganisationDocumentNamed | src/Service/Indexer/Enricher/SiteKitSchema2x/OrganisationDocumentEnricher.php:61 | a non-empty name is the name and title, its transliteration the sort value and its first character both start letters |
| OrganisationEnricher.EnrichDocument | src/Service/Indexer/Enricher/SiteKitSchema2x/OrganisationDocumentEnricher.php:39-50 | non-organisations untouched; organisations get `OrganisationDocument`, with alternative documents cloned before keywords, token and content: one new session in the resource's language, committed once, after the earlier sessions unchanged |
| PersonEnricher.OrganisationStep | src/Service/Indexer/Enricher/SiteKitSchema2x/PersonDocumentEnricher.php:152-186 | one membership pass; its effect is stated by `OrganisationsSkipUrlLess`, `OrganisationsAppendNames` and `OrganisationsLastPrimary` |
| PersonEnricher.Organisations | src/Service/Indexer/Enricher/SiteKitSchema2x/PersonDocumentEnricher.php:152-186 | only `sp_organisation` and the path change; no collected token contains a dot; at most one token per membership with a url |
| PersonEnricher.OrganisationsStopped | src/Service/Indexer/Enricher/SiteKitSchema2x/PersonDocumentEnricher.php:95-104 | after a failing load the loop is abandoned: later memberships change nothing |
| PersonEnricher.OrganisationsSkipUrlLess | src/Service/Indexer/Enricher/SiteKitSchema2x/PersonDocumentEnricher.php:153-156 | a membership without a url is skipped |
| PersonEnricher.OrganisationsAppendNames | src/Service/Indexer/Enricher/SiteKitSchema2x/PersonDocumentEnricher.php:158-178 | a loaded organisation appends its name and then its synonyms, and its token with dots as spaces unless the token is empty |
| PersonEnricher.OrganisationsLastPrimary | src/Service/Indexer/Enricher/SiteKitSchema2x/PersonDocumentEnricher.php:180-185 | a primary membership writes that organisation's id into `sp_organisation` and appends the ids of its primary path to the path collected so far |
| PersonEnricher.ProductStep | src/Service/Indexer/Enricher/SiteKitSchema2x/PersonDocumentEnricher.php:213-238 | one competence pass; its effect is stated by `ProductsSkipUrlLess` and `ProductsAppendNames` |
| PersonEnricher.Products | src/Service/Indexer/Enricher/SiteKitSchema2x/PersonDocumentEnricher.php:213-235 | every collected product name is the name or a synonym of a loaded product |
| PersonEnricher.ProductsSkipUrlLess | src/Service/Indexer/Enricher/SiteKitSchema2x/PersonDocumentEnricher.php:213-217 | a competence without a product url is skipped |
| PersonEnricher.ProductsAppendNames | src/Service/Indexer/Enricher/SiteKitSchema2x/PersonDocumentEnricher.php:218-235 | a loaded product appends its name and then its synonyms; a failing load stops with the loader's error |
| PersonEnricher.ProductsStopped | src/Service/Indexer/Enricher/SiteKitSchema2x/PersonDocumentEnricher.php:106-115 | after a failing load later competences change nothing |
| PersonEnricher.ProductsConcat | src/Service/Indexer/Enricher/SiteKitSchema2x/PersonDocumentEnricher.php:213-238 | the flattening is in competence order: a split of the list splits the names |
| PersonEnricher.FunctionText | src/Service/Indexer/Enricher/SiteKitSchema2x/PersonDocumentEnricher.php:117-126 | `trim(name . ' ' . appendix)`; bounded and trimmed by `Strings.Trim` |
| PersonEnricher.PersonNamed | src/Service/Indexer/Enricher/SiteKitSchema2x/PersonDocumentEnricher.php:72-93 | first and last name, the transliterated sort value, both start letters its first character; nothing else changes |
| PersonEnricher.PersonDocument | src/Service/Indexer/Enricher/SiteKitSchema2x/PersonDocumentEnricher.php:67-132 | only the person fields change; names always written; an organisation failure is wrapped with the person's location, the organisation message and the cause, a product failure likewise with the product message, each leaving later fields untouched; on success organisations, tokens, products, function and content as written in the source |
| PersonEnricher.AaaUnchanged | src/Service/Indexer/Enricher/SiteKitSchema2x/PersonDocumentEnricher.php:86-90 | the separator `aaa` is not changed by the transliteration |
| PersonEnricher.SortNameSplit | src/Service/Indexer/Enricher/SiteKitSchema2x/PersonDocumentEnricher.php:86-90 | the sort value is transliterated last name, `aaa`, transliterated first name |
| PersonEnricher.PersonSortValue | src/Service/Indexer/Enricher/SiteKitSchema2x/PersonDocumentEnricher.php:86-93 | on success the sort value orders by last name, and both start letters are its first character |
| PersonEnricher.EnrichPersonOrganisations | src/Service/Indexer/Enricher/SiteKitSchema2x/PersonDocumentEnricher.php:139-195 | the membership loop leaves the fields and the error of `Organisations` |
| PersonEnricher.EnrichPersonProducts | src/Service/Indexer/Enricher/SiteKitSchema2x/PersonDocumentEnricher.php:202-243 | the competence loop writes the names of `Products` or stops with its error |
| PersonEnricher.EnrichDocument | src/Service/Indexer/Enricher/SiteKitSchema2x/PersonDocumentEnricher.php:49-60 | non-persons untouched; persons get `PersonDocument` |
| PersonEnricher.OrganisationsAsWritten | src/Service/Indexer/Enricher/SiteKitSchema2x/PersonDocumentEnricher.php:139-195 | the membership loop as written, where line 181 nulls the document |
| PersonEnricher.PersonDocumentAsWritten | src/Service/Indexer/Enricher/SiteKitSchema2x/PersonDocumentEnricher.php:67-132 | the person enrichment as written, crashing when line 181 runs |
| PersonEnricher.OrganisationsAsWrittenWithoutPrimary | src/Service/Indexer/Enricher/SiteKitSchema2x/PersonDocumentEnricher.php:180-185 | without a primary membership the loop as written is the corrected loop |
| PersonEnricher.PersonDocumentAsWrittenWithoutPrimary | src/Service/Indexer/Enricher/SiteKitSchema2x/PersonDocumentEnricher.php:139-195 | so a person without a primary membership is enriched as corrected |
| PersonEnricher.PrimaryMembershipCrashes | src/Service/Indexer/Enricher/SiteKitSchema2x/PersonDocumentEnricher.php:181 | a single primary membership that loads crashes as written, while the corrected enrichment sets `sp_organisation` and appends that organisation's path ids to `sp_organisation_path` |
| ProductEnricher.ProductNamed | src/Service/Indexer/Enricher/SiteKitSchema2x/ProductDocumentEnricher.php:108-123 | transliterated first; a non-empty result as name, titles and start letters; the sort value always, `''` included |
| ProductEnricher.ProductNamedWithoutUmlauts | src/Service/Indexer/Enricher/SiteKitSchema2x/ProductDocumentEnricher.php:108-123 | without umlauts it is the shared name enrichment plus the sort value of an empty name |
| ProductEnricher.EnrichName | src/Service/Indexer/Enricher/SiteKitSchema2x/ProductDocumentEnricher.php:108-123 | updates the document to `ProductNamed` |
| ProductEnricher.WithLeika | src/Service/Indexer/Enricher/SiteKitSchema2x/ProductDocumentEnricher.php:149-154 | non-empty keys become the meta string `leikanumber`; no keys change nothing |
| ProductEnricher.EnrichLeikaNumber | src/Service/Indexer/Enricher/SiteKitSchema2x/ProductDocumentEnricher.php:149-154 | updates the document to `WithLeika` |
| ProductEnricher.WithOnlineServices | src/Service/Indexer/Enricher/SiteKitSchema2x/ProductDocumentEnricher.php:138-146 | a non-empty service list appends `citygovOnlineService` to the content types; otherwise nothing changes |
| ProductEnricher.EnrichOnlineServices | src/Service/Indexer/Enricher/SiteKitSchema2x/ProductDocumentEnricher.php:138-146 | updates the document to `WithOnlineServices` |
| ProductEnricher.WithSynonyms | src/Service/Indexer/Enricher/SiteKitSchema2x/ProductDocumentEnricher.php:131-136 | non-empty synonyms are appended to `keywords`; none change nothing |
| ProductEnricher.EnrichSynonyms | src/Service/Indexer/Enricher/SiteKitSchema2x/ProductDocumentEnricher.php:131-136 | updates the document to `WithSynonyms` |
| ProductEnricher.WithContent | src/Service/Indexer/Enricher/SiteKitSchema2x/ProductDocumentEnricher.php:161-187 | content becomes the trim of the old content, a space and the collected text with whitespace runs collapsed; no other field changes |
| ProductEnricher.ContentWhitespaceCollapsed | src/Service/Indexer/Enricher/SiteKitSchema2x/ProductDocumentEnricher.php:176-184 | the appended text keeps the collected characters in order with no two whitespace characters adjacent |
| ProductEnricher.EnrichContent | src/Service/Indexer/Enricher/SiteKitSchema2x/ProductDocumentEnricher.php:161-187 | updates the document to `WithContent` |
| ProductEnricher.PrimaryOrganisationUrl | src/Service/Indexer/Enricher/SiteKitSchema2x/ProductDocumentEnricher.php:204-214 | the url of the first responsibility that is primary and has one; none exactly when there is no such entry |
| ProductEnricher.ProductOrganisationPath | src/Service/Indexer/Enricher/SiteKitSchema2x/ProductDocumentEnricher.php:194-237 | without primary url nothing changes; with one, success exactly when the organisation and its primary path load; a failed organisation load keeps the fields and carries the product's location and the fixed message; on success that organisation's id and its path ids appended to the existing path |
| ProductEnricher.EnrichOrganisationPath | src/Service/Indexer/Enricher/SiteKitSchema2x/ProductDocumentEnricher.php:194-237 | the loop with `break` computes `ProductOrganisationPath` |
| ProductEnricher.BeforeExpansion | src/Service/Indexer/Enricher/SiteKitSchema2x/ProductDocumentEnricher.php:71-77 | name, leika number, organisation path and online services, the steps before the expansion |
| ProductEnricher.ProductDocument | src/Service/Indexer/Enricher/SiteKitSchema2x/ProductDocumentEnricher.php:66-101 | a path failure carries the product's location and the path message and stops after the path; the sort value always set; `sp_organisation` and its path those of the path step on success; on success content, keywords, content types and leika number as the steps say; no other field changes |
| ProductEnricher.ProductDocumentAsWritten | src/Service/Indexer/Enricher/SiteKitSchema2x/ProductDocumentEnricher.php:66-101 | the product enrichment as written, crashing when line 221 runs |
| ProductEnricher.ExpandsAsWritten | src/Service/Indexer/Enricher/SiteKitSchema2x/ProductDocumentEnricher.php:80 | the expansion test as written, on the undeclared property `alternativeTitle` |
| ProductEnricher.AlternativeDocument | src/Service/Indexer/Enricher/SiteKitSchema2x/ProductDocumentEnricher.php:85-91 | id `-i`, url `?cg_at_id=i`, no keywords and description, the content kept, renamed by the product's `enrichName` |
| ProductEnricher.CloneAlternative | src/Service/Indexer/Enricher/SiteKitSchema2x/ProductDocumentEnricher.php:85-91 | one loop pass: a fresh clone holding exactly this enricher's `AlternativeDocument` of the origin |
| ProductEnricher.Expansion | src/Service/Indexer/Enricher/SiteKitSchema2x/ProductDocumentEnricher.php:82-93 | one alternative-title document per title, in title order |
| ProductEnricher.ExpansionAgainstShared | src/Service/Indexer/Enricher/SiteKitSchema2x/ProductDocumentEnricher.php:85-91 | without umlauts it is the shared expansion with the content kept |
| ProductEnricher.ExpansionIdsDistinct | src/Service/Indexer/Enricher/SiteKitSchema2x/ProductDocumentEnricher.php:90-91 | the alternative-title documents have pairwise different ids and urls |
| ProductEnricher.AddAlternativeTitles | src/Service/Indexer/Enricher/SiteKitSchema2x/ProductDocumentEnricher.php:81-94 | one updater, the clones queued in title order, one commit; the origin is not modified |
| ProductEnricher.EnrichDocument | src/Service/Indexer/Enricher/SiteKitSchema2x/ProductDocumentEnricher.php:48-59 | non-products untouched; products get `ProductDocument`, alternative titles expanded before synonyms and content when the flag is on: one new session in the resource's language, committed once, after the earlier sessions unchanged |
| ProductEnricher.Expands | src/Service/Indexer/Enricher/SiteKitSchema2x/ProductDocumentEnricher.php:80 | the corrected expansion test: the declared flag `addAlternativeDocuments` and at least one alternative title |
| ProductEnricher.AlternativeTitlesNeverExpanded | src/Service/Indexer/Enricher/SiteKitSchema2x/ProductDocumentEnricher.php:80 | as written the undeclared property is null, so nothing is ever expanded; the declared flag would expand |
| ProductEnricher.PrimaryResponsibilityCrashes | src/Service/Indexer/Enricher/SiteKitSchema2x/ProductDocumentEnricher.php:221 | a primary responsibility that loads crashes as written, while the corrected enrichment succeeds with that organisation's id and its path ids appended to `sp_organisation_path` |
| ContactPointEnricher.PhoneNumbers | src/Service/Indexer/Enricher/SiteKitSchema2x/ContactPointDocumentEnricher.php:76-83 | at most one number per entry; every entry's number is kept; nothing else appears |
| ContactPointEnricher.EmailAddresses | src/Service/Indexer/Enricher/SiteKitSchema2x/ContactPointDocumentEnricher.php:85-92 | at most one address per entry; every entry's address is kept; nothing else appears |
| ContactPointEnricher.PhoneNumbersConcat | src/Service/Indexer/Enricher/SiteKitSchema2x/ContactPointDocumentEnricher.php:78-82 | the numbers keep the entries' order |
| ContactPointEnricher.EmailAddressesConcat | src/Service/Indexer/Enricher/SiteKitSchema2x/ContactPointDocumentEnricher.php:87-91 | the addresses keep the entries' order |
| ContactPointEnricher.PhoneNumbersAll | src/Service/Indexer/Enricher/SiteKitSchema2x/ContactPointDocumentEnricher.php:78-82 | when every entry has a number, the list is exactly the numbers, position by position |
| ContactPointEnricher.EmailAddressesAll | src/Service/Indexer/Enricher/SiteKitSchema2x/ContactPointDocumentEnricher.php:87-91 | when every entry has an address, the list is exactly the addresses, position by position |
| ContactPointEnricher.AddressSearchValue | src/Service/Indexer/Enricher/SiteKitSchema2x/ContactPointDocumentEnricher.php:107-112 | trimmed at the ends and no longer than the three parts and two spaces |
| ContactPointEnricher.AddressSearchValueJoins | src/Service/Indexer/Enricher/SiteKitSchema2x/ContactPointDocumentEnricher.php:107-112 | the parts are joined by single spaces, a missing street leaving two inner spaces |
| ContactPointEnricher.ContactPointFields | src/Service/Indexer/Enricher/SiteKitSchema2x/ContactPointDocumentEnricher.php:71-101 | all three fields are always set; nothing else changes |
| ContactPointEnricher.EmptyContactPoint | src/Service/Indexer/Enricher/SiteKitSchema2x/ContactPointDocumentEnricher.php:76-98 | an empty contact point gives `[]`, `[]` and `''` |
| ContactPointEnricher.EnrichDocumentForContactPoint | src/Service/Indexer/Enricher/SiteKitSchema2x/ContactPointDocumentEnricher.php:71-101 | updates the document to `ContactPointFields` |
| ContactPointEnricher.EnrichDocument | src/Service/Indexer/Enricher/SiteKitSchema2x/ContactPointDocumentEnricher.php:42-63 | only organisations and persons are enriched; other types leave the document untouched |
| ContactPointEnricher21.IsIndexable | src/Service/Indexer/Enricher/SiteKitSchema21/ContactPointDocumentEnricher.php:36-39 | every resource is indexable |
| ContactPointEnricher21.NationalNumbers | src/Service/Indexer/Enricher/SiteKitSchema21/ContactPointDocumentEnricher.php:74-79 | one number per phone entry |
| ContactPointEnricher21.Addresses | src/Service/Indexer/Enricher/SiteKitSchema21/ContactPointDocumentEnricher.php:81-86 | one address per e-mail entry |
| ContactPointEnricher21.NationalNumbersAt | src/Service/Indexer/Enricher/SiteKitSchema21/ContactPointDocumentEnricher.php:74-79 | every phone entry gives its number, at its own position |
| ContactPointEnricher21.AddressesAt | src/Service/Indexer/Enricher/SiteKitSchema21/ContactPointDocumentEnricher.php:81-86 | every e-mail entry gives its address, at its own position |
| ContactPointEnricher21.ContactPointFields | src/Service/Indexer/Enricher/SiteKitSchema21/ContactPointDocumentEnricher.php:69-95 | each phone entry's number and each e-mail entry's address at its own position, the address search value; nothing else changes |
| ContactPointEnricher21.SameAsSchema2x | src/Service/Indexer/Enricher/SiteKitSchema21/ContactPointDocumentEnricher.php:69-95 | on complete contact data both schemas write the same fields |
| ContactPointEnricher21.EnrichDocumentForContactPoint | src/Service/Indexer/Enricher/SiteKitSchema21/ContactPointDocumentEnricher.php:69-95 | updates the document to this schema's fields |
| ContactPointEnricher21.EnrichDocument | src/Service/Indexer/Enricher/SiteKitSchema21/ContactPointDocumentEnricher.php:41-62 | only organisations and persons are enriched |
| PersonEnricher21.IsIndexable | src/Service/Indexer/Enricher/SiteKitSchema21/PersonDocumentEnricher.php:39-42 | every resource is indexable |
| PersonEnricher21.PersonNamed | src/Service/Indexer/Enricher/SiteKitSchema21/PersonDocumentEnricher.php:62-74 | first and last name as given; sort value `lastname . aaa . firstname` untransliterated; start letter only for a non-empty last name; nothing else changes |
| PersonEnricher21.SortNameAgainstSchema2x | src/Service/Indexer/Enricher/SiteKitSchema21/PersonDocumentEnricher.php:71 | for names without umlauts both schemas agree on the sort value |
| PersonEnricher21.OrganisationStep | src/Service/Indexer/Enricher/SiteKitSchema21/PersonDocumentEnricher.php:85-118 | one membership pass of this schema; its effect is stated by `OrganisationsSkipUrlLess` and `OrganisationsAppendNames` |
| PersonEnricher21.Organisations | src/Service/Indexer/Enricher/SiteKitSchema21/PersonDocumentEnricher.php:85-119 | no token contains a dot, at most one per membership with a url, and without a primary membership the document is unchanged |
| PersonEnricher21.OrganisationsSkipUrlLess | src/Service/Indexer/Enricher/SiteKitSchema21/PersonDocumentEnricher.php:85-89 | a membership without a url is skipped |
| PersonEnricher21.OrganisationsAppendNames | src/Service/Indexer/Enricher/SiteKitSchema21/PersonDocumentEnricher.php:91-111 | a loaded organisation appends its name, its synonyms and its token with dots as spaces unless empty |
| PersonEnricher21.OrganisationsStopped | src/Service/Indexer/Enricher/SiteKitSchema21/PersonDocumentEnricher.php:85-119 | after a failure later memberships change nothing |
| PersonEnricher21.OrganisationsAgainstSchema2x | src/Service/Indexer/Enricher/SiteKitSchema21/PersonDocumentEnricher.php:85-125 | without a primary membership the 2.1 loop collects exactly what the 2.x loop collects |
| PersonEnricher21.Products | src/Service/Indexer/Enricher/SiteKitSchema21/PersonDocumentEnricher.php:127-153 | the competence loop of this schema, each url loaded by itself; the 2.x lemmas about `Products` apply to it |
| PersonEnricher21.PersonDocument | src/Service/Indexer/Enricher/SiteKitSchema21/PersonDocumentEnricher.php:57-167 | errors pass through unwrapped, a product failure with the loader's error and the lists written; on success organisations, tokens, products and function as written; without a primary membership the first and last name are the person's and nothing outside the person fields changes, and on success there the sort value and `sp_citygov_startletter` come from the name while content and `sp_startletter` stay untouched |
| PersonEnricher21.EnrichOrganisations | src/Service/Indexer/Enricher/SiteKitSchema21/PersonDocumentEnricher.php:76-125 | the membership loop leaves the fields and error of `Organisations` |
| PersonEnricher21.EnrichProducts | src/Service/Indexer/Enricher/SiteKitSchema21/PersonDocumentEnricher.php:127-153 | the competence loop writes the product names or stops with the error |
| PersonEnricher21.EnrichDocumentForPerson | src/Service/Indexer/Enricher/SiteKitSchema21/PersonDocumentEnricher.php:57-167 | updates the document to `PersonDocument` |
| PersonEnricher21.EnrichDocument | src/Service/Indexer/Enricher/SiteKitSchema21/PersonDocumentEnricher.php:44-55 | non-persons untouched; persons get `PersonDocument` |

## Left out

- Loading resources, the organisation hierarchy, link creation, the Solr index service and SQLite are not executed. They are parameters: `Loader`, `PathLoader`, `LinkFactory`, the `IndexService` class and an `execute` function from data source name to rows.
- The resource's data bag is not modelled as path strings. Each object type is decoded into a typed record (`Resources`). A missing path reads as the default the source asks for.
- The content collector and rich-text matcher are not modelled. The text they collect for a product is the parameter `collected` of `ProductEnricher.EnrichDocument`.
- The logger call in `OnlineServiceFeatureFactory::create` is left out. A failing item is only skipped.
- `ResourceLanguage::of` is not modelled. Languages are passed on as the input's `Option<string>`, and `ResourceLocation::of($url)` without a language uses `''`.
- `SuggestQuery` and `SearchQuery` are not modelled in full. Only text, language, offset, limit and filters are kept. The search query's constant arguments are dropped: two empty lists, `true`, `false`, the `OR` operator and three nulls.
- `Link` keeps only its url; its other parts are dropped.
- The GraphQL input `SearchCitygovPersonInput` is not part of this model. Its fields (person, competence, offset, limit, lang) are taken from how `SearchCitygovPersonQueryFactory` reads them.
- The SiteKitSchema21 `OrganisationDocumentEnricher` is not part of this model. Its `enrichOrganisationPath` is the parameter `PathEnricher` of `PersonEnricher21`, which returns the new fields or an error.
- The `processId` argument of every `enrichDocument` is unused in the source and is left out.
- SQL text, `quote()` and PDO exceptions are left out. Conditions are structured values, and a failing `prepare` or `execute` is `None` from `execute`.
- `CompetenceFilter.SelectDistinctPersons`: returns persons in the order of their first satisfying row. SQLite promises no order for `SELECT DISTINCT`, so this is more specific than the source.
- `CompetenceFilter.Normalised`: handles ASCII letters and digits only. `mb_strtoupper` and `[[:alnum:]]` also upper-case and keep non-ASCII letters such as umlauts.
- `CompetenceFilter.Fit`: counts characters, as `mb_strlen` and `mb_substr` do. `str_pad` counts bytes, which differs on multi-byte padding of non-ASCII input.
- `Strings.ToLower`: covers ASCII only, like `strtolower` in PHP 8.2 and later. Locale-dependent case mapping is left out.
- `OrganisationEnricher.PathIds`: `(int)` is unbounded here. PHP saturates at `PHP_INT_MAX`.
- `Strings.IntCast`: reads an optional sign and decimal digits only. PHP's `(int)` of a numeric string also reads a fraction or an exponent, so `"1e3"` gives 1000 in PHP and 1 here.
- `ChannelAttributesFactory.GetBool`: the attribute bag (`DataBag`) is not part of this model. A stored value of another type is taken to read as the default, for `GetString` as well.
- `ContactPointEnricher21.EnrichDocument`: requires every phone entry to have a number and every e-mail entry an address, as the enricher's declared data types say. On other data PHP would append null with a warning.
- The tests that expect `sp_id` filters from a competence input (`test/Service/GraphQL/Query/CitygovPersonFilterFactoryTest.php:58-76`) construct the factory with an argument it does not take. The model follows the code, where the competence input gives no filter.

## Findings

| source | as written | input that shows it | evidently intended | confidence | as-written member | corrected member |
|---|---|---|---|---|---|---|
| src/Service/Indexer/Enricher/SiteKitSchema2x/PersonDocumentEnricher.php:181 | The `void` result of `enrichOrganisationPath` is assigned to `$doc`, so `$doc` becomes null and the next field write is an `Error` that `catch (Exception)` does not catch. | A person with one primary membership whose organisation and primary path load. | The organisation path written into the handed document, which stays the person's document. | high, not executed | PersonEnricher.PrimaryMembershipCrashes | PersonEnricher.PersonDocument |
| src/Service/Indexer/Enricher/SiteKitSchema2x/ProductDocumentEnricher.php:221 | The same assignment of a `void` result; the method then returns null from a method declared to return `IndexDocument`, a `TypeError`. | A product whose first primary responsibility has a url, and whose organisation and path load. | The path written into the product's document. | high, not executed | ProductEnricher.PrimaryResponsibilityCrashes | ProductEnricher.ProductDocument |
| src/Service/Indexer/Enricher/SiteKitSchema2x/ProductDocumentEnricher.php:80 | Reads `$this->channelAttributes->alternativeTitle`, a property `ChannelAttributes` does not declare. It is null, so alternative titles are never expanded. | Channel flag `addAlternativeDocuments` on and a product with one alternative title. | Test the declared flag `addAlternativeDocuments`, as the shared trait does. | high, not executed | ProductEnricher.AlternativeTitlesNeverExpanded | ProductEnricher.EnrichDocument |
