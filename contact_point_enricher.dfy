/** `SiteKitSchema2x\ContactPointDocumentEnricher`: phone numbers, e-mail
    addresses and the address search value of organisations and persons. */
module ContactPointEnricher {
  import opened Wrappers
  import opened Strings
  import opened Resources
  import opened Documents

  /** The object types whose contact point is indexed. */
  predicate HasContactPoint(r: Resource) {
    r.objectType == ORGANISATION_TYPE || r.objectType == PERSON_TYPE
  }

  /** The national numbers of the entries that have one, in order. */
  function PhoneNumbers(phones: seq<PhoneEntry>): (r: seq<string>)
    ensures |r| <= |phones|
    ensures forall i :: 0 <= i < |phones| && phones[i].nationalNumber.Some? ==>
      phones[i].nationalNumber.value in r
    ensures forall n :: n in r ==> PhoneEntry(Some(n)) in phones
  {
    if phones == [] then []
    else
      var init := PhoneNumbers(phones[..|phones| - 1]);
      var last := phones[|phones| - 1];
      assert forall i :: 0 <= i < |phones| - 1 ==> phones[i] == phones[..|phones| - 1][i];
      if last.nationalNumber.Some? then init + [last.nationalNumber.value] else init
  }

  /** The addresses of the entries that have one, in order. */
  function EmailAddresses(emails: seq<EmailEntry>): (r: seq<string>)
    ensures |r| <= |emails|
    ensures forall i :: 0 <= i < |emails| && emails[i].email.Some? ==> emails[i].email.value in r
    ensures forall e :: e in r ==> EmailEntry(Some(e)) in emails
  {
    if emails == [] then []
    else
      var init := EmailAddresses(emails[..|emails| - 1]);
      var last := emails[|emails| - 1];
      assert forall i :: 0 <= i < |emails| - 1 ==> emails[i] == emails[..|emails| - 1][i];
      if last.email.Some? then init + [last.email.value] else init
  }

  /** Keeping the numbers distributes over a split of the list, so their
      order is the entries' order. */
  lemma {:induction false} PhoneNumbersConcat(a: seq<PhoneEntry>, b: seq<PhoneEntry>)
    ensures PhoneNumbers(a + b) == PhoneNumbers(a) + PhoneNumbers(b)
    decreases |b|
  {
    if b == [] {
      assert a + b == a;
    } else {
      var b' := b[..|b| - 1];
      assert (a + b)[..|a + b| - 1] == a + b';
      assert (a + b)[|a + b| - 1] == b[|b| - 1];
      PhoneNumbersConcat(a, b');
    }
  }

  /** Keeping the addresses distributes over a split of the list, so their
      order is the entries' order. */
  lemma {:induction false} EmailAddressesConcat(a: seq<EmailEntry>, b: seq<EmailEntry>)
    ensures EmailAddresses(a + b) == EmailAddresses(a) + EmailAddresses(b)
    decreases |b|
  {
    if b == [] {
      assert a + b == a;
    } else {
      var b' := b[..|b| - 1];
      assert (a + b)[..|a + b| - 1] == a + b';
      assert (a + b)[|a + b| - 1] == b[|b| - 1];
      EmailAddressesConcat(a, b');
    }
  }

  /** When every entry has a number, each contributes exactly its number. */
  lemma {:induction false} PhoneNumbersAll(phones: seq<PhoneEntry>)
    requires forall i :: 0 <= i < |phones| ==> phones[i].nationalNumber.Some?
    ensures |PhoneNumbers(phones)| == |phones|
    ensures forall i :: 0 <= i < |phones| ==> PhoneNumbers(phones)[i] == phones[i].nationalNumber.value
  {
    if phones != [] {
      PhoneNumbersAll(phones[..|phones| - 1]);
    }
  }

  /** When every entry has an address, each contributes exactly its address. */
  lemma {:induction false} EmailAddressesAll(emails: seq<EmailEntry>)
    requires forall i :: 0 <= i < |emails| ==> emails[i].email.Some?
    ensures |EmailAddresses(emails)| == |emails|
    ensures forall i :: 0 <= i < |emails| ==> EmailAddresses(emails)[i] == emails[i].email.value
  {
    if emails != [] {
      EmailAddressesAll(emails[..|emails| - 1]);
    }
  }

  /** `toAddressSearchValue`: building name, street and house number joined
      by single spaces, missing parts as `''`, then trimmed at both ends
      only. */
  function AddressSearchValue(a: AddressData): (v: string)
    ensures v == [] || (!IsTrimChar(v[0]) && !IsTrimChar(v[|v| - 1]))
    ensures |v| <= |a.buildingName.GetOr("")| + |a.street.GetOr("")| + |a.housenumber.GetOr("")| + 2
  {
    Trim(a.buildingName.GetOr("") + " " + a.street.GetOr("") + " " + a.housenumber.GetOr(""))
  }

  /** Between a building name that does not start and a house number that
      does not end with whitespace, the three parts are kept as they are,
      with one space before and one after the street, even an empty one. */
  lemma AddressSearchValueJoins(a: AddressData)
    requires a.buildingName.Some? && a.housenumber.Some?
    requires a.buildingName.value != [] && !IsTrimChar(a.buildingName.value[0])
    requires a.housenumber.value != [] && !IsTrimChar(a.housenumber.value[|a.housenumber.value| - 1])
    ensures AddressSearchValue(a) == a.buildingName.value + " " + a.street.GetOr("") + " " + a.housenumber.value
  {
    var s := a.buildingName.value + " " + a.street.GetOr("") + " " + a.housenumber.value;
    assert s[0] == a.buildingName.value[0];
    assert s[|s| - 1] == a.housenumber.value[|a.housenumber.value| - 1];
    TrimUnchanged(s);
  }

  /** `enrichDocumentForContactPoint`: all three fields are set, to `[]`,
      `[]` and `''` when the contact point holds nothing. */
  function ContactPointFields(f: Fields, c: ContactPoint): (g: Fields)
    ensures g.spCitygovPhone == Some(PhoneNumbers(c.phoneList))
    ensures g.spCitygovEmail == Some(EmailAddresses(c.emailList))
    ensures g.spCitygovAddress == Some(AddressSearchValue(c.addressData))
    ensures g.(spCitygovPhone := f.spCitygovPhone, spCitygovEmail := f.spCitygovEmail,
               spCitygovAddress := f.spCitygovAddress) == f
  {
    f.(spCitygovPhone := Some(PhoneNumbers(c.phoneList)),
       spCitygovEmail := Some(EmailAddresses(c.emailList)),
       spCitygovAddress := Some(AddressSearchValue(c.addressData)))
  }

  /** An empty contact point gives empty lists and an empty address. */
  lemma EmptyContactPoint(f: Fields)
    ensures var g := ContactPointFields(f, ContactPoint([], [], AddressData(None, None, None)));
      g.spCitygovPhone == Some([]) && g.spCitygovEmail == Some([]) && g.spCitygovAddress == Some("")
  {
    var a := AddressData(None, None, None);
    assert a.buildingName.GetOr("") + " " + a.street.GetOr("") + " " + a.housenumber.GetOr("") == "  ";
    assert TrimStart("  ") == [] by {
      assert "  "[1..] == " " && " "[1..] == [];
    }
  }

  method EnrichDocumentForContactPoint(c: ContactPoint, doc: IndexDocument)
    modifies doc
    ensures doc.fields == ContactPointFields(old(doc.fields), c)
  {
    var phones: seq<string> := [];
    for i := 0 to |c.phoneList|
      invariant phones == PhoneNumbers(c.phoneList[..i])
    {
      assert c.phoneList[..i + 1][..i] == c.phoneList[..i];
      if c.phoneList[i].nationalNumber.Some? {
        phones := phones + [c.phoneList[i].nationalNumber.value];
      }
    }
    assert c.phoneList[..|c.phoneList|] == c.phoneList;
    doc.fields := doc.fields.(spCitygovPhone := Some(phones));

    var emails: seq<string> := [];
    for i := 0 to |c.emailList|
      invariant emails == EmailAddresses(c.emailList[..i])
    {
      assert c.emailList[..i + 1][..i] == c.emailList[..i];
      if c.emailList[i].email.Some? {
        emails := emails + [c.emailList[i].email.value];
      }
    }
    assert c.emailList[..|c.emailList|] == c.emailList;
    doc.fields := doc.fields.(spCitygovEmail := Some(emails));

    doc.fields := doc.fields.(spCitygovAddress := Some(AddressSearchValue(c.addressData)));
  }

  /** `enrichDocument`: only organisations and persons are enriched. */
  method EnrichDocument(resource: Resource, doc: IndexDocument)
    modifies doc
    ensures !HasContactPoint(resource) ==> doc.fields == old(doc.fields)
    ensures HasContactPoint(resource) ==> doc.fields == ContactPointFields(old(doc.fields), resource.contactPoint)
  {
    if !HasContactPoint(resource) {
      return;
    }
    EnrichDocumentForContactPoint(resource.contactPoint, doc);
  }
}
