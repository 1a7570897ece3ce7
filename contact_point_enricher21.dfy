/** `SiteKitSchema21\ContactPointDocumentEnricher`: the older schema's
    contact-point enricher. Its data type requires every phone entry to hold a
    national number and every e-mail entry an address, and it appends them
    without checking. */
module ContactPointEnricher21 {
  import opened Wrappers
  import opened Resources
  import opened Documents
  import ContactPointEnricher

  /** `isIndexable`: every resource is. */
  function IsIndexable(r: Resource): (b: bool)
    ensures b
  {
    true
  }

  /** The contact points the data type describes. */
  predicate Complete(c: ContactPoint) {
    (forall i :: 0 <= i < |c.phoneList| ==> c.phoneList[i].nationalNumber.Some?) &&
    (forall i :: 0 <= i < |c.emailList| ==> c.emailList[i].email.Some?)
  }

  /** Every entry's number, in order. */
  function NationalNumbers(phones: seq<PhoneEntry>): (r: seq<string>)
    requires forall i :: 0 <= i < |phones| ==> phones[i].nationalNumber.Some?
    ensures |r| == |phones|
  {
    if phones == [] then [] else NationalNumbers(phones[..|phones| - 1]) + [phones[|phones| - 1].nationalNumber.value]
  }

  /** Every entry's address, in order. */
  function Addresses(emails: seq<EmailEntry>): (r: seq<string>)
    requires forall i :: 0 <= i < |emails| ==> emails[i].email.Some?
    ensures |r| == |emails|
  {
    if emails == [] then [] else Addresses(emails[..|emails| - 1]) + [emails[|emails| - 1].email.value]
  }

  /** Each phone entry contributes its number, at its own position. */
  lemma {:induction false} NationalNumbersAt(phones: seq<PhoneEntry>)
    requires forall i :: 0 <= i < |phones| ==> phones[i].nationalNumber.Some?
    ensures |NationalNumbers(phones)| == |phones|
    ensures forall i :: 0 <= i < |phones| ==> NationalNumbers(phones)[i] == phones[i].nationalNumber.value
  {
    if phones != [] {
      NationalNumbersAt(phones[..|phones| - 1]);
    }
  }

  /** Each e-mail entry contributes its address, at its own position. */
  lemma {:induction false} AddressesAt(emails: seq<EmailEntry>)
    requires forall i :: 0 <= i < |emails| ==> emails[i].email.Some?
    ensures |Addresses(emails)| == |emails|
    ensures forall i :: 0 <= i < |emails| ==> Addresses(emails)[i] == emails[i].email.value
  {
    if emails != [] {
      AddressesAt(emails[..|emails| - 1]);
    }
  }

  /** `enrichDocumentForContactPoint`: every phone entry's number and every
      e-mail entry's address at the entry's own position, and the address
      search value; no other field changes. */
  function ContactPointFields(f: Fields, c: ContactPoint): (g: Fields)
    requires Complete(c)
    ensures g.spCitygovPhone.Some? && |g.spCitygovPhone.value| == |c.phoneList|
    ensures forall i :: 0 <= i < |c.phoneList| ==> g.spCitygovPhone.value[i] == c.phoneList[i].nationalNumber.value
    ensures g.spCitygovEmail.Some? && |g.spCitygovEmail.value| == |c.emailList|
    ensures forall i :: 0 <= i < |c.emailList| ==> g.spCitygovEmail.value[i] == c.emailList[i].email.value
    ensures g.spCitygovAddress == Some(ContactPointEnricher.AddressSearchValue(c.addressData))
    ensures g.(spCitygovPhone := f.spCitygovPhone, spCitygovEmail := f.spCitygovEmail,
               spCitygovAddress := f.spCitygovAddress) == f
  {
    NationalNumbersAt(c.phoneList);
    AddressesAt(c.emailList);
    f.(spCitygovPhone := Some(NationalNumbers(c.phoneList)),
       spCitygovEmail := Some(Addresses(c.emailList)),
       spCitygovAddress := Some(ContactPointEnricher.AddressSearchValue(c.addressData)))
  }

  /** On the contact points both schemas accept, the older enricher writes
      what the newer one writes. */
  lemma SameAsSchema2x(f: Fields, c: ContactPoint)
    requires Complete(c)
    ensures ContactPointFields(f, c) == ContactPointEnricher.ContactPointFields(f, c)
  {
    NationalNumbersAt(c.phoneList);
    ContactPointEnricher.PhoneNumbersAll(c.phoneList);
    assert NationalNumbers(c.phoneList) == ContactPointEnricher.PhoneNumbers(c.phoneList);
    AddressesAt(c.emailList);
    ContactPointEnricher.EmailAddressesAll(c.emailList);
    assert Addresses(c.emailList) == ContactPointEnricher.EmailAddresses(c.emailList);
  }

  method EnrichDocumentForContactPoint(c: ContactPoint, doc: IndexDocument)
    requires Complete(c)
    modifies doc
    ensures doc.fields == ContactPointFields(old(doc.fields), c)
  {
    var phones: seq<string> := [];
    for i := 0 to |c.phoneList|
      invariant phones == NationalNumbers(c.phoneList[..i])
    {
      assert c.phoneList[..i + 1][..i] == c.phoneList[..i];
      phones := phones + [c.phoneList[i].nationalNumber.value];
    }
    assert c.phoneList[..|c.phoneList|] == c.phoneList;
    doc.fields := doc.fields.(spCitygovPhone := Some(phones));

    var emails: seq<string> := [];
    for i := 0 to |c.emailList|
      invariant emails == Addresses(c.emailList[..i])
    {
      assert c.emailList[..i + 1][..i] == c.emailList[..i];
      emails := emails + [c.emailList[i].email.value];
    }
    assert c.emailList[..|c.emailList|] == c.emailList;
    doc.fields := doc.fields.(spCitygovEmail := Some(emails));

    doc.fields := doc.fields.(spCitygovAddress := Some(ContactPointEnricher.AddressSearchValue(c.addressData)));
  }

  /** `enrichDocument`: only organisations and persons are enriched. */
  method EnrichDocument(resource: Resource, doc: IndexDocument)
    requires ContactPointEnricher.HasContactPoint(resource) ==> Complete(resource.contactPoint)
    modifies doc
    ensures !ContactPointEnricher.HasContactPoint(resource) ==> doc.fields == old(doc.fields)
    ensures ContactPointEnricher.HasContactPoint(resource) ==>
      doc.fields == ContactPointFields(old(doc.fields), resource.contactPoint)
  {
    if !ContactPointEnricher.HasContactPoint(resource) {
      return;
    }
    EnrichDocumentForContactPoint(resource.contactPoint, doc);
  }
}
