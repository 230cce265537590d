/** The seller card of the seller search results: the certification badges,
    the established year and the location line, computed from one
    `/getVendors` record. */
module SellerCard {
  import opened Common
  import Backend
  import SellerProfile

  /** `certifications.length > 0`: the section is rendered at all. */
  predicate CertSectionShown(certs: seq<string>) {
    |certs| > 0
  }

  /** `certifications.slice(0, 3)`: the badges drawn, in list order. */
  function ShownCerts(certs: seq<string>): (r: seq<string>)
    ensures |r| <= 3 && |r| <= |certs|
    ensures |r| == |certs| || |r| == 3
    ensures r == certs[..|r|]
  {
    if |certs| <= 3 then certs else certs[..3]
  }

  /** The `+N more` badge: present iff more than three certifications. */
  function MoreBadge(certs: seq<string>): (n: Option<nat>)
    ensures n.Some? <==> |certs| > 3
    ensures n.Some? ==> n.value > 0
  {
    if |certs| > 3 then Some(|certs| - 3) else None
  }

  /** The badges account for every certification exactly once: the shown ones
      plus the `+N` count give the list length, and the count appears only
      when something is hidden. */
  lemma BadgesCoverList(certs: seq<string>)
    ensures |ShownCerts(certs)| + (if MoreBadge(certs).Some? then MoreBadge(certs).value else 0) == |certs|
    ensures MoreBadge(certs).None? <==> ShownCerts(certs) == certs
    ensures CertSectionShown(certs) <==> ShownCerts(certs) != []
  {
  }

  /** `Est. {currentYear - Years_in_Business}`. The CRM sends an empty field
      as `null`, which the subtraction reads as 0, so such a seller shows the
      current year. */
  function EstablishedYear(currentYear: int, yearsInBusiness: Option<int>): (r: int)
    ensures yearsInBusiness.Some? ==> Backend.YearsInBusiness(currentYear, r) == yearsInBusiness.value
    ensures yearsInBusiness.None? ==> r == currentYear
  {
    match yearsInBusiness
    case Some(years) => currentYear - years
    case None => currentYear
  }

  /** The card shows the same established year as the seller's own profile
      form, for the same current year. */
  lemma EstablishedYearAgreesWithProfile(currentYear: int, p: SellerProfile.Profile)
    ensures Some(EstablishedYear(currentYear, Some(p.yearsInBusiness)))
      == SellerProfile.NumValue(SellerProfile.FormFromProfile(p, currentYear).yearEstablished)
  {
  }

  /** `{State},{Country}`: always a comma and never a space. */
  function CardLocation(state: string, country: string): (r: string)
    ensures |r| == |state| + 1 + |country|
    ensures r[|state|] == ',' && r[..|state|] == state && r[|state| + 1..] == country
  {
    state + "," + country
  }

  /** The card's location line never matches the backend's `sellerLocation`
      of the same vendor: the latter separates with ", " or drops the
      separator when the country is empty. */
  lemma CardLocationDiffersFromBackend(state: string, country: string)
    ensures CardLocation(state, country) != Backend.SellerLocation(state, country)
  {
    var c := CardLocation(state, country);
    var b := Backend.SellerLocation(state, country);
    if country == "" {
      assert |c| == |b| + 1;
    } else {
      assert |b| == |c| + 1;
    }
  }

  /** The card for one record of `/getVendors`. */
  datatype Card = Card(
    name: string, location: string, established: int,
    badges: seq<string>, more: Option<nat>, showCertifications: bool)

  function CardOf(seller: Backend.VendorWithCerts, currentYear: int): (c: Card)
    ensures c.name == seller.vendor.vendorName
    ensures c.location == CardLocation(seller.vendor.state, seller.vendor.country)
    ensures c.established == EstablishedYear(currentYear, seller.vendor.yearsInBusiness)
    ensures c.badges == ShownCerts(seller.certifications) && c.more == MoreBadge(seller.certifications)
    ensures c.showCertifications <==> seller.certifications != []
  {
    Card(seller.vendor.vendorName, CardLocation(seller.vendor.state, seller.vendor.country),
         EstablishedYear(currentYear, seller.vendor.yearsInBusiness),
         ShownCerts(seller.certifications), MoreBadge(seller.certifications),
         CertSectionShown(seller.certifications))
  }

  /** Every badge on a card of `/getVendors` is the name of one of that
      vendor's own certifications. */
  lemma BadgesAreOwnCertifications(v: Backend.Vendor, certs: seq<Backend.Certification>, currentYear: int)
    ensures forall b :: b in CardOf(Backend.VendorWithCerts(v, Backend.CertNamesOf(certs, v.id)), currentYear).badges ==>
      exists j :: 0 <= j < |certs| && certs[j].vendor.id == v.id && certs[j].name == b
  {
    var names := Backend.CertNamesOf(certs, v.id);
    var badges := CardOf(Backend.VendorWithCerts(v, names), currentYear).badges;
    Backend.CertNamesOfMembers(certs, v.id);
    forall b | b in badges
      ensures exists j :: 0 <= j < |certs| && certs[j].vendor.id == v.id && certs[j].name == b
    {
      var k :| 0 <= k < |badges| && badges[k] == b;
      assert badges == names[..|badges|];
      assert b in names;
    }
  }

}
