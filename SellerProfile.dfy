/** The seller's profile page: the form filled from the fetched CRM profile,
    the company initials in the overview card, per-field edits, and the body
    saved to `PUT /seller/:id`, together with what the backend makes of the
    joined contact name and the established year. */
module SellerProfile {
  import opened Common
  import Backend

  /** The profile as `GET /getSeller/:id` returns it. The CRM sends an empty
      First_Name as `null` (`None`). */
  datatype Profile = Profile(
    id: string, firstName: Option<string>, lastName: string, email: string, mobile: string,
    vendorName: string, website: string, mailingStreet: string, mailingCity: string,
    mailingState: string, mailingZip: string, mailingCountry: string,
    businessDescription: string, taxIdentificationNumber: string,
    yearsInBusiness: int, employeeCount: int, businessLicenseNumber: string)

  /** The fetched body: an object without keys, or a profile. */
  datatype Body = EmptyObject | Record(profile: Profile)

  /** A numeric form field: the number the form was filled with, or the text
      typed into the input afterwards. */
  datatype NumField = Num(n: int) | Typed(text: string)

  /** The number `new Date().getFullYear() - field` reads from the field on
      the backend (`None` for NaN). */
  function NumValue(f: NumField): (v: Option<int>)
    ensures f.Num? ==> v == Some(f.n)
    ensures f.Typed? && IsBlank(f.text) ==> v == Some(0)
  {
    match f
    case Num(n) => Some(n)
    case Typed(text) => ParseNumber(text)
  }

  datatype FormData = FormData(
    companyName: string, contactPerson: string, email: string, phone: string,
    website: string, address: string, city: string, state: string, zipCode: string,
    country: string, description: string, yearEstablished: NumField,
    employeeCount: NumField, businessLicense: string, taxId: string)

  const EmptyForm := FormData("", "", "", "", "", "", "", "", "", "", "", Num(0), Num(0), "", "")

  /** A first name as string concatenation renders it: `null` becomes the
      text "null". */
  function FirstNameText(first: Option<string>): (r: string)
    ensures first.Some? ==> r == first.value
    ensures first.None? ==> r == "null"
  {
    match first
    case Some(name) => name
    case None => "null"
  }

  /** The form filled from a profile: the contact person is first and last
      name joined by one space, and the established year is the current
      year less the years in business, so the backend's conversion gives the
      years back. */
  function FormFromProfile(p: Profile, currentYear: int): (r: FormData)
    ensures r.contactPerson == FirstNameText(p.firstName) + " " + p.lastName
    ensures NumValue(r.yearEstablished).Some?
    ensures Backend.YearsInBusiness(currentYear, NumValue(r.yearEstablished).value) == p.yearsInBusiness
    ensures r.companyName == p.vendorName && r.email == p.email && r.phone == p.mobile
    ensures r.website == p.website && r.description == p.businessDescription
    ensures r.address == p.mailingStreet && r.city == p.mailingCity && r.state == p.mailingState
    ensures r.zipCode == p.mailingZip && r.country == p.mailingCountry
    ensures r.employeeCount == Num(p.employeeCount)
    ensures r.businessLicense == p.businessLicenseNumber && r.taxId == p.taxIdentificationNumber
  {
    FormData(p.vendorName, FirstNameText(p.firstName) + " " + p.lastName, p.email, p.mobile, p.website,
             p.mailingStreet, p.mailingCity, p.mailingState, p.mailingZip, p.mailingCountry,
             p.businessDescription, Num(currentYear - p.yearsInBusiness), Num(p.employeeCount),
             p.businessLicenseNumber, p.taxIdentificationNumber)
  }

  /** The joined contact name splits back into the same first and last name
      exactly when neither contains a space. */
  lemma ContactRoundTrip(first: string, last: string)
    ensures Backend.SplitContact(first + " " + last) == (first, Some(last))
        <==> ' ' !in first && ' ' !in last
  {
    var s := first + " " + last;
    assert ' ' in s by {
      assert s[|first|] == ' ';
    }
    if ' ' !in first {
      SplitAt(first, ' ', last);
      if ' ' !in last {
        SplitNoSeparator(last, ' ');
      } else {
        var parts := Split(first + [' '] + last, ' ');
        assert parts[1] == Split(last, ' ')[0];
        assert ' ' !in parts[1];
      }
    }
  }

  /** The backend keeps only the first two words of a longer contact name:
      a middle name becomes the last name and the last name is lost. */
  lemma ContactKeepsTwoWords(first: string, middle: string, last: string)
    requires ' ' !in first && ' ' !in middle && ' ' !in last
    ensures Backend.SplitContact(first + " " + middle + " " + last) == (first, Some(middle))
  {
    SplitAt(first, ' ', middle + [' '] + last);
    SplitAt(middle, ' ', last);
    SplitNoSeparator(last, ' ');
    var s := first + " " + middle + " " + last;
    assert s == first + [' '] + (middle + [' '] + last);
    assert s[|first|] == ' ';
    assert Split(s, ' ') == [first, middle, last];
  }

  /** A year typed as decimal digits reaches the backend as that year; an
      input cleared to blank reads as 0, so the years in business become the
      current year. */
  lemma TypedYear(currentYear: int, year: int)
    ensures NumValue(Typed(IntToString(year))) == Some(year)
    ensures Backend.YearsInBusiness(currentYear, NumValue(Typed("")).value) == currentYear
  {
    ParseIntToString(year);
    assert IsBlank("");
  }

  // ---------------------------------------------------------------------------
  // Initials

  /** `words.map(w => w[0]).join("")`: the first character of every non-empty
      word (an empty word gives `undefined`, which `join` prints as nothing). */
  function FirstLetters(words: seq<string>): (r: string)
    ensures |r| <= |words|
  {
    if words == [] then ""
    else (if words[0] == "" then "" else [words[0][0]]) + FirstLetters(words[1..])
  }

  /** The company initials: the first letters of the space-separated words,
      in order, at most three. */
  function Initials(companyName: string): (r: string)
    ensures |r| == Min(3, |FirstLetters(Split(companyName, ' '))|)
    ensures r == FirstLetters(Split(companyName, ' '))[..|r|]
  {
    var letters := FirstLetters(Split(companyName, ' '));
    if |letters| <= 3 then letters else letters[..3]
  }

  function Min(a: int, b: int): int { if a <= b then a else b }

  /** The first piece of a string that does not start with the separator
      starts with the string's first character. */
  lemma SplitHead(s: string, sep: char)
    requires s != [] && s[0] != sep
    ensures Split(s, sep)[0] != [] && Split(s, sep)[0][0] == s[0]
  {
  }

  lemma FirstLettersCons(w: string, rest: seq<string>)
    requires w != []
    ensures FirstLetters([w] + rest) == [w[0]] + FirstLetters(rest)
  {
    assert ([w] + rest)[1..] == rest;
  }

  /** Three leading words give their three first letters, whatever follows. */
  lemma InitialsOfThreeWords(a: string, b: string, c: string)
    requires a != [] && b != [] && c != [] && c[0] != ' '
    requires ' ' !in a && ' ' !in b
    ensures Initials(a + " " + b + " " + c) == [a[0], b[0], c[0]]
  {
    var tail := Split(c, ' ');
    SplitHead(c, ' ');
    SplitAt(b, ' ', c);
    SplitAt(a, ' ', b + [' '] + c);
    assert a + " " + b + " " + c == a + [' '] + (b + [' '] + c);
    assert Split(a + " " + b + " " + c, ' ') == [a] + ([b] + tail);
    FirstLettersCons(a, [b] + tail);
    FirstLettersCons(b, tail);
    assert tail == [tail[0]] + tail[1..];
    FirstLettersCons(tail[0], tail[1..]);
    var letters := FirstLetters(Split(a + " " + b + " " + c, ' '));
    assert letters == [a[0], b[0], c[0]] + FirstLetters(tail[1..]);
    assert letters[..3] == [a[0], b[0], c[0]];
  }

  /** One word gives its first letter. */
  lemma InitialsOfOneWord(a: string)
    requires a != [] && ' ' !in a
    ensures Initials(a) == [a[0]]
  {
    SplitNoSeparator(a, ' ');
    FirstLettersCons(a, []);
  }

  /** Two words give their two first letters. */
  lemma InitialsOfTwoWords(a: string, b: string)
    requires a != [] && b != [] && ' ' !in a && ' ' !in b
    ensures Initials(a + " " + b) == [a[0], b[0]]
  {
    SplitNoSeparator(b, ' ');
    SplitAt(a, ' ', b);
    assert a + " " + b == a + [' '] + b;
    FirstLettersCons(a, [b]);
    FirstLettersCons(b, []);
  }

  // ---------------------------------------------------------------------------
  // Editing and saving

  datatype Field = CompanyName | ContactPerson | Email | Phone | Website | Address | City
                 | State | ZipCode | Country | Description | YearEstablished | EmployeeCount
                 | BusinessLicense | TaxId

  /** `{ ...prev, [field]: value }`: the numeric inputs store the typed text. */
  function SetField(f: FormData, field: Field, value: string): FormData {
    match field
    case CompanyName => f.(companyName := value)
    case ContactPerson => f.(contactPerson := value)
    case Email => f.(email := value)
    case Phone => f.(phone := value)
    case Website => f.(website := value)
    case Address => f.(address := value)
    case City => f.(city := value)
    case State => f.(state := value)
    case ZipCode => f.(zipCode := value)
    case Country => f.(country := value)
    case Description => f.(description := value)
    case YearEstablished => f.(yearEstablished := Typed(value))
    case EmployeeCount => f.(employeeCount := Typed(value))
    case BusinessLicense => f.(businessLicense := value)
    case TaxId => f.(taxId := value)
  }

  /** The body of `PUT /seller/:id`: every form field and the seller's fixed
      vendor account id. */
  datatype SaveRequest = SaveRequest(fields: FormData, vendorAccountId: string)

  /** Saving the form as it was filled writes the profile's own names and
      years back, provided neither name contains a space; a `null` first name
      is written back as the text "null". */
  lemma SaveRoundTrip(p: Profile, currentYear: int, accountId: string)
    requires ' ' !in FirstNameText(p.firstName) && ' ' !in p.lastName
    ensures var req := SaveRequest(FormFromProfile(p, currentYear), accountId);
      && Backend.SplitContact(req.fields.contactPerson) == (FirstNameText(p.firstName), Some(p.lastName))
      && Backend.YearsInBusiness(currentYear, NumValue(req.fields.yearEstablished).value) == p.yearsInBusiness
      && req.vendorAccountId == accountId
  {
    ContactRoundTrip(FirstNameText(p.firstName), p.lastName);
  }

  /** A profile without a first name shows "null" before the last name, and
      saving it untouched writes First_Name "null" to the CRM. */
  lemma NullFirstNameSavedAsText(p: Profile, currentYear: int, accountId: string)
    requires p.firstName.None? && ' ' !in p.lastName
    ensures FormFromProfile(p, currentYear).contactPerson == "null " + p.lastName
    ensures Backend.SplitContact(SaveRequest(FormFromProfile(p, currentYear), accountId).fields.contactPerson)
      == ("null", Some(p.lastName))
  {
    assert ' ' !in "null";
    SaveRoundTrip(p, currentYear, accountId);
  }

  class SellerProfilePage {
    var profile: Option<Body>
    var formData: FormData
    var loading: bool

    constructor ()
      ensures profile == None && formData == EmptyForm && loading
    {
      profile := None;
      formData := EmptyForm;
      loading := true;
    }

    /** The fetch settles: a body (`Some`) is stored and, if it has keys,
        fills the form; a failed fetch leaves both alone. Loading ends either
        way. */
    method FetchDone(result: Option<Body>, currentYear: int)
      modifies this
      ensures !loading
      ensures profile == if result.Some? then result else old(profile)
      ensures formData ==
        if result.Some? && result.value.Record? then FormFromProfile(result.value.profile, currentYear)
        else old(formData)
    {
      if result.Some? {
        profile := result;
        if result.value.Record? {
          formData := FormFromProfile(result.value.profile, currentYear);
        }
      }
      loading := false;
    }

    method InputChange(field: Field, value: string)
      modifies this
      ensures formData == SetField(old(formData), field, value)
      ensures profile == old(profile) && loading == old(loading)
    {
      formData := SetField(formData, field, value);
    }

    /** The request the save button sends; the page itself is not changed. */
    method Save(sellerAccountId: string) returns (request: SaveRequest)
      ensures request.fields == formData && request.vendorAccountId == sellerAccountId
    {
      request := SaveRequest(formData, sellerAccountId);
    }
  }
}
