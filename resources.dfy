/** The content records the enrichers read, decoded from the resource's data
    bag into one typed record per object type. A path the data bag does not
    hold reads as the default the source asks for: "" for a string, [] for a
    list, false for a flag. */
module Resources {
  import opened Wrappers

  const ORGANISATION_TYPE := "citygovOrganisation"
  const PERSON_TYPE := "citygovPerson"
  const PRODUCT_TYPE := "citygovProduct"

  /** A resource location: the path (or url) and the language. */
  datatype Location = Location(location: string, lang: string)

  /** Errors raised by collaborators, and the enrichment error that wraps a
      cause together with the location of the resource being enriched and a
      fixed message. */
  datatype Error =
    | LoadFailure(at: Location, reason: string)
    | HierarchyFailure(at: Location, reason: string)
    | DocumentEnriching(location: Location, message: string, cause: Error)

  /** `membershipList.items[]` of a person: `primary === true` and the
      optional `organisation.url`. */
  datatype Membership = Membership(primary: bool, organisationUrl: Option<string>)

  /** `competenceList.items[]` of a person: the optional `product.url`. */
  datatype Competence = Competence(productUrl: Option<string>)

  /** `responsibilityList.items[]` of a product. */
  datatype Responsibility = Responsibility(primary: bool, organisationUrl: Option<string>)

  /** `onlineServices.serviceList.items[]`: the optional `url`. */
  datatype ServiceItem = ServiceItem(url: Option<string>)

  /** `metadata.citygovProduct.onlineServices`: how many entries the raw
      `serviceList` array has, and its `items`. */
  datatype OnlineServices = OnlineServices(serviceListSize: nat, items: seq<ServiceItem>)

  datatype OrganisationData = OrganisationData(
    name: string,
    token: string,
    synonymList: seq<string>,
    alternativeNameList: seq<string>)

  datatype PersonData = PersonData(
    firstname: string,
    lastname: string,
    membershipList: seq<Membership>,
    competenceList: seq<Competence>,
    functionName: string,
    functionAppendix: string,
    alternativeNameList: seq<string>)

  datatype ProductData = ProductData(
    name: string,
    leikaKeys: seq<string>,
    responsibilityList: seq<Responsibility>,
    onlineServices: Option<OnlineServices>,
    synonymList: seq<string>,
    alternativeNameList: seq<string>)

  /** `phoneList[].phone`: the optional `nationalNumber`. */
  datatype PhoneEntry = PhoneEntry(nationalNumber: Option<string>)

  /** `emailList[]`: the optional `email`. */
  datatype EmailEntry = EmailEntry(email: Option<string>)

  datatype AddressData = AddressData(
    buildingName: Option<string>,
    street: Option<string>,
    housenumber: Option<string>)

  /** `metadata.contactPoint`. */
  datatype ContactPoint = ContactPoint(
    phoneList: seq<PhoneEntry>,
    emailList: seq<EmailEntry>,
    addressData: AddressData)

  /** A resource: its identity, its object type, and the decoded sections of
      its data bag (`metadata.citygovOrganisation`, `…citygovPerson`,
      `…citygovProduct`, `metadata.contactPoint`). */
  datatype Resource = Resource(
    location: string,
    id: string,
    name: string,
    objectType: string,
    lang: string,
    organisation: OrganisationData,
    person: PersonData,
    product: ProductData,
    contactPoint: ContactPoint)

  /** `$resource->toLocation()`. */
  function ToLocation(r: Resource): Location {
    Location(r.location, r.lang)
  }

  /** `metadata.<objectType>.alternativeNameList`. */
  function AlternativeNameList(r: Resource): seq<string> {
    if r.objectType == ORGANISATION_TYPE then r.organisation.alternativeNameList
    else if r.objectType == PERSON_TYPE then r.person.alternativeNameList
    else if r.objectType == PRODUCT_TYPE then r.product.alternativeNameList
    else []
  }

  /** `ResourceLoader::load`: a resource, or the error it raises. */
  type Loader = Location -> Result<Resource, Error>

  /** `SiteKitResourceHierarchyLoader::loadPrimaryPath`: the primary path of
      resources from the root to the given one, or the error it raises. */
  type PathLoader = Location -> Result<seq<Resource>, Error>
}
