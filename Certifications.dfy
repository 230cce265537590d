/** The seller's certifications page: the certificate form and its
    validation, the expiry status, and the local list edits made after adding,
    updating or deleting a certification. */
module Certifications {
  import opened Common

  // ---------------------------------------------------------------------------
  // Dates

  /** The page compares the `YYYY-MM-DD` values of two date inputs. For such
      strings chronological order is character-by-character order, which is
      what this relation is. */
  function Before(a: string, b: string): bool {
    if a == [] then b != []
    else if b == [] then false
    else if a[0] == b[0] then Before(a[1..], b[1..])
    else a[0] < b[0]
  }

  /** No date is before itself, so equal issue and expiry dates are refused. */
  lemma {:induction false} BeforeIrreflexive(a: string)
    ensures !Before(a, a)
  {
    if a != [] {
      BeforeIrreflexive(a[1..]);
    }
  }

  /** Of two different dates exactly one is before the other. */
  lemma {:induction false} BeforeTotal(a: string, b: string)
    requires a != b
    ensures Before(a, b) != Before(b, a)
  {
    if a != [] && b != [] && a[0] == b[0] {
      assert a == [a[0]] + a[1..] && b == [b[0]] + b[1..];
      BeforeTotal(a[1..], b[1..]);
    }
  }

  /** Comparing two texts of the same length settles on their last characters
      only when everything before them is equal. */
  lemma {:induction false} BeforeSnoc(a: string, b: string)
    requires |a| == |b| && a != []
    ensures Before(a, b) == (Before(a[..|a| - 1], b[..|b| - 1])
      || (a[..|a| - 1] == b[..|b| - 1] && a[|a| - 1] < b[|b| - 1]))
  {
    var n := |a| - 1;
    if n > 0 && a[0] == b[0] {
      BeforeSnoc(a[1..], b[1..]);
      assert a[1..][..n - 1] == a[..n][1..] && b[1..][..n - 1] == b[..n][1..];
      assert a[..n] == [a[0]] + a[..n][1..] && b[..n] == [b[0]] + b[..n][1..];
    }
  }

  /** For digit strings of one length the text order is the numeric order. */
  lemma {:induction false} BeforeIsValueOrder(a: string, b: string)
    requires |a| == |b| && AllDigits(a) && AllDigits(b)
    ensures Before(a, b) <==> DigitsValue(a) < DigitsValue(b)
    ensures a == b <==> DigitsValue(a) == DigitsValue(b)
  {
    if a != [] {
      var n := |a| - 1;
      var a', b' := a[..n], b[..n];
      BeforeIsValueOrder(a', b');
      BeforeSnoc(a, b);
      if DigitsValue(a') == DigitsValue(b') {
        BeforeIrreflexive(a');
        assert a == a' + [a[n]] && b == b' + [b[n]];
      } else if DigitsValue(b') < DigitsValue(a') {
        BeforeTotal(a', b');
      }
    }
  }

  /** The first texts decide unless they are equal, and then the rest does. */
  lemma {:induction false} BeforeAppend(x: string, p: string, y: string, q: string)
    requires |x| == |y|
    ensures Before(x + p, y + q) == (Before(x, y) || (x == y && Before(p, q)))
  {
    if x != [] {
      assert (x + p)[1..] == x[1..] + p && (y + q)[1..] == y[1..] + q;
      BeforeAppend(x[1..], p, y[1..], q);
      if x[0] == y[0] {
        assert x == [x[0]] + x[1..] && y == [y[0]] + y[1..];
      }
    } else {
      assert x + p == p && y + q == q;
    }
  }

  /** On `YYYY-MM-DD` dates the relation is chronological order: by year, then
      month, then day. */
  lemma BeforeIsDateOrder(a: string, b: string, y1: int, m1: int, d1: int, y2: int, m2: int, d2: int)
    requires IsFullDate(a, y1, m1, d1) && IsFullDate(b, y2, m2, d2)
    ensures Before(a, b) <==> y1 < y2 || (y1 == y2 && (m1 < m2 || (m1 == m2 && d1 < d2)))
  {
    BeforeIsValueOrder(a[..4], b[..4]);
    BeforeIsValueOrder(a[5..7], b[5..7]);
    BeforeIsValueOrder(a[8..], b[8..]);
    assert a == a[..4] + ("-" + (a[5..7] + ("-" + a[8..])));
    assert b == b[..4] + ("-" + (b[5..7] + ("-" + b[8..])));
    BeforeAppend(a[..4], "-" + (a[5..7] + ("-" + a[8..])), b[..4], "-" + (b[5..7] + ("-" + b[8..])));
    BeforeAppend(a[5..7], "-" + a[8..], b[5..7], "-" + b[8..]);
    assert ("-" + (a[5..7] + ("-" + a[8..])))[1..] == a[5..7] + ("-" + a[8..]);
    assert ("-" + (b[5..7] + ("-" + b[8..])))[1..] == b[5..7] + ("-" + b[8..]);
    assert ("-" + a[8..])[1..] == a[8..] && ("-" + b[8..])[1..] == b[8..];
  }

  // ---------------------------------------------------------------------------
  // Expiry status

  const Expired := "Expired"
  const ExpiringSoon := "Expiring Soon"
  const ValidStatus := "Valid"

  /** `daysUntilExpiry` is the whole number of days (rounded up) from now to
      the expiry date, computed by the caller from the clock. */
  function GetStatus(daysUntilExpiry: int): (s: string)
    ensures s == Expired <==> daysUntilExpiry < 0
    ensures s == ExpiringSoon <==> 0 <= daysUntilExpiry <= 90
    ensures s == ValidStatus <==> daysUntilExpiry > 90
  {
    if daysUntilExpiry < 0 then Expired
    else if daysUntilExpiry <= 90 then ExpiringSoon
    else ValidStatus
  }

  // ---------------------------------------------------------------------------
  // New ids

  /** `C${String(count + 1).padStart(3, "0")}`. */
  function NewCertId(count: nat): string {
    "C" + PadStart(NatToString(count + 1), 3, '0')
  }

  /** The new id is "C" followed by the decimal digits of `count + 1`, padded
      with zeros to three digits. */
  lemma NewCertIdDigits(count: nat)
    ensures var id := NewCertId(count);
      && |id| >= 4 && id[0] == 'C' && AllDigits(id[1..]) && DigitsValue(id[1..]) == count + 1
      && (count + 1 < 1000 ==> |id| == 4)
  {
    var id := NewCertId(count);
    var digits := NatToString(count + 1);
    ZeroPadValue(digits, 3);
    NatToStringValue(count + 1);
    NatToStringLength(count + 1);
    assert id[1..] == PadStart(digits, 3, '0');
  }

  /** Lists of different lengths give different new ids. */
  lemma NewCertIdInjective(a: nat, b: nat)
    requires NewCertId(a) == NewCertId(b)
    ensures a == b
  {
    NewCertIdDigits(a);
    NewCertIdDigits(b);
    assert NewCertId(a)[1..] == NewCertId(b)[1..];
  }

  // ---------------------------------------------------------------------------
  // Records

  /** The five text fields of the certificate form (the chosen image file is
      not modelled). */
  datatype CertForm = CertForm(certificateNumber: string, certificateName: string,
                               issueDate: string, expiryDate: string, issuer: string)

  const EmptyForm := CertForm("", "", "", "", "")

  /** The CRM fields of a certification. */
  datatype CrmFields = CrmFields(certificationNumber: string, name: string, issuedDate: string,
                                 expiryDate: string, issuer: string, url: string)

  const BlankCrm := CrmFields("", "", "", "", "", "")

  /** A certification as the page holds it: its id and CRM fields, plus the
      form fields and status that the page's own spreads add to it. */
  datatype Cert = Cert(id: string, crm: CrmFields, form: Option<CertForm>, status: Option<string>)

  /** A record's `id`; deleting is `WithoutId(certs, CertId, certId)`. */
  function CertId(c: Cert): string { c.id }

  datatype CertRequest = CertRequest(certificationNo: string, name: string, issuer: string,
                                     issueDate: string, expiryDate: string)

  function RequestOf(f: CertForm): (r: CertRequest)
    ensures r.certificationNo == f.certificateNumber && r.name == f.certificateName
    ensures r.issuer == f.issuer && r.issueDate == f.issueDate && r.expiryDate == f.expiryDate
  {
    CertRequest(f.certificateNumber, f.certificateName, f.issuer, f.issueDate, f.expiryDate)
  }

  const NumberRequired := "Certificate number is required"
  const NameRequired := "Certificate name is required"
  const IssueRequired := "Issue date is required"
  const ExpiryRequired := "Expiry date is required"
  const IssuerRequired := "Issuer is required"
  const ExpiryNotAfter := "Expiry date must be after issue date"

  /** The form's fields, which are also the keys of its error record. */
  datatype Field = CertificateNumber | CertificateName | IssueDate | ExpiryDate | Issuer

  /** Whether the date check fires: both dates given, issue not before expiry. */
  predicate DatesOutOfOrder(f: CertForm) {
    f.issueDate != "" && f.expiryDate != "" && !Before(f.issueDate, f.expiryDate)
  }

  /** Equal issue and expiry dates are refused. */
  lemma EqualDatesOutOfOrder(f: CertForm)
    requires f.issueDate != "" && f.issueDate == f.expiryDate
    ensures DatesOutOfOrder(f)
  {
    BeforeIrreflexive(f.issueDate);
  }

  /** The error record `validateForm` builds for a form, the date-order
      message written last. */
  function FormErrors(f: CertForm): map<Field, string> {
    var e1: map<Field, string> := if IsBlank(f.certificateNumber) then map[CertificateNumber := NumberRequired] else map[];
    var e2 := if IsBlank(f.certificateName) then e1[CertificateName := NameRequired] else e1;
    var e3 := if f.issueDate == "" then e2[IssueDate := IssueRequired] else e2;
    var e4 := if f.expiryDate == "" then e3[ExpiryDate := ExpiryRequired] else e3;
    var e5 := if IsBlank(f.issuer) then e4[Issuer := IssuerRequired] else e4;
    if DatesOutOfOrder(f) then e5[ExpiryDate := ExpiryNotAfter] else e5
  }

  /** Each key is recorded exactly when its check fails; the date-order
      message replaces the "required" one. */
  lemma FormErrorsKeys(f: CertForm)
    ensures var e := FormErrors(f);
      && (CertificateNumber in e <==> IsBlank(f.certificateNumber))
      && (CertificateName in e <==> IsBlank(f.certificateName))
      && (Issuer in e <==> IsBlank(f.issuer))
      && (IssueDate in e <==> f.issueDate == "")
      && (ExpiryDate in e <==> f.expiryDate == "" || DatesOutOfOrder(f))
      && (ExpiryDate in e ==> e[ExpiryDate] == (if DatesOutOfOrder(f) then ExpiryNotAfter else ExpiryRequired))
  {
  }

  /** The form passes exactly when every check passes, and then its issue
      date is before its expiry date. */
  lemma FormErrorsEmpty(f: CertForm)
    ensures FormErrors(f) == map[] <==>
      && !IsBlank(f.certificateNumber) && !IsBlank(f.certificateName) && !IsBlank(f.issuer)
      && f.issueDate != "" && f.expiryDate != "" && !DatesOutOfOrder(f)
    ensures FormErrors(f) == map[] ==> Before(f.issueDate, f.expiryDate)
  {
    FormErrorsKeys(f);
    var e := FormErrors(f);
    if e != map[] {
      var k :| k in e;
    }
  }

  /** The checks of `validateForm`, in its order. */
  method CheckForm(f: CertForm) returns (r: map<Field, string>)
    ensures r == FormErrors(f)
  {
    r := map[];
    if IsBlank(f.certificateNumber) {
      r := r[CertificateNumber := NumberRequired];
    }
    if IsBlank(f.certificateName) {
      r := r[CertificateName := NameRequired];
    }
    if f.issueDate == "" {
      r := r[IssueDate := IssueRequired];
    }
    if f.expiryDate == "" {
      r := r[ExpiryDate := ExpiryRequired];
    }
    if IsBlank(f.issuer) {
      r := r[Issuer := IssuerRequired];
    }
    if DatesOutOfOrder(f) {
      r := r[ExpiryDate := ExpiryNotAfter];
    }
  }

  /** The list after a local add: the new record, with the given id, the
      form's fields and blank CRM fields, in front of the others. */
  function WithNew(certs: seq<Cert>, id: string, f: CertForm): (r: seq<Cert>)
    ensures |r| == |certs| + 1 && r[1..] == certs
    ensures r[0].id == id && r[0].crm == BlankCrm && r[0].form == Some(f) && r[0].status == None
  {
    [Cert(id, BlankCrm, Some(f), None)] + certs
  }

  /** Deleting the record just added undoes the add, provided no earlier
      record shared its id. */
  lemma DeleteUndoesAdd(certs: seq<Cert>, id: string, f: CertForm)
    requires forall k :: 0 <= k < |certs| ==> certs[k].id != id
    ensures WithoutId(WithNew(certs, id, f), CertId, id) == certs
  {
    var r := WithNew(certs, id, f);
    assert r == [r[0]] + certs;
    WithoutAbsentId(certs, CertId, id);
  }

  class CertificationsPage {
    var certifications: seq<Cert>
    var form: CertForm
    var errors: map<Field, string>
    var editingCert: Option<Cert>
    var isAddingNew: bool

    constructor ()
      ensures certifications == [] && form == EmptyForm && errors == map[]
      ensures editingCert == None && !isAddingNew
    {
      certifications := [];
      form := EmptyForm;
      errors := map[];
      editingCert := None;
      isAddingNew := false;
    }

    /** A fetch replaces the list. */
    method Load(fetched: seq<Cert>)
      modifies this
      ensures certifications == fetched
      ensures form == old(form) && errors == old(errors) && editingCert == old(editingCert)
        && isAddingNew == old(isAddingNew)
    {
      certifications := fetched;
    }

    method OpenAdd()
      modifies this
      ensures isAddingNew
      ensures certifications == old(certifications) && form == old(form) && errors == old(errors)
        && editingCert == old(editingCert)
    {
      isAddingNew := true;
    }

    /** Typing stores the value and blanks that field's message if it has a
        non-empty one. */
    method InputChange(field: Field, value: string)
      modifies this
      ensures form == (
        if field == CertificateNumber then old(form).(certificateNumber := value)
        else if field == CertificateName then old(form).(certificateName := value)
        else if field == IssueDate then old(form).(issueDate := value)
        else if field == ExpiryDate then old(form).(expiryDate := value)
        else old(form).(issuer := value))
      ensures errors == if field in old(errors) && old(errors)[field] != "" then old(errors)[field := ""] else old(errors)
      ensures certifications == old(certifications) && editingCert == old(editingCert)
        && isAddingNew == old(isAddingNew)
    {
      if field == CertificateNumber {
        form := form.(certificateNumber := value);
      } else if field == CertificateName {
        form := form.(certificateName := value);
      } else if field == IssueDate {
        form := form.(issueDate := value);
      } else if field == ExpiryDate {
        form := form.(expiryDate := value);
      } else {
        form := form.(issuer := value);
      }
      if field in errors && errors[field] != "" {
        errors := errors[field := ""];
      }
    }

    /** The form's `validateForm`; the date-order message replaces the
        "required" message under `expiryDate`. */
    method Validate() returns (valid: bool)
      modifies this
      ensures certifications == old(certifications) && form == old(form)
        && editingCert == old(editingCert) && isAddingNew == old(isAddingNew)
      ensures errors == FormErrors(form)
      ensures CertificateNumber in errors <==> IsBlank(form.certificateNumber)
      ensures CertificateName in errors <==> IsBlank(form.certificateName)
      ensures Issuer in errors <==> IsBlank(form.issuer)
      ensures IssueDate in errors <==> form.issueDate == ""
      ensures ExpiryDate in errors <==> form.expiryDate == "" || DatesOutOfOrder(form)
      ensures ExpiryDate in errors ==>
        errors[ExpiryDate] == (if DatesOutOfOrder(form) then ExpiryNotAfter else ExpiryRequired)
      ensures valid <==> errors == map[]
      ensures valid <==>
        && !IsBlank(form.certificateNumber) && !IsBlank(form.certificateName) && !IsBlank(form.issuer)
        && form.issueDate != "" && form.expiryDate != "" && !DatesOutOfOrder(form)
      ensures valid ==> Before(form.issueDate, form.expiryDate)
    {
      var f := form;
      var newErrors := CheckForm(f);
      errors := newErrors;
      FormErrorsKeys(f);
      FormErrorsEmpty(f);
      valid := newErrors == map[];
    }

    method ResetForm()
      modifies this
      ensures form == EmptyForm && errors == map[]
      ensures certifications == old(certifications) && editingCert == old(editingCert)
        && isAddingNew == old(isAddingNew)
    {
      form := EmptyForm;
      errors := map[];
    }

    /** The add dialog's Cancel: the dialog closes and the form is reset;
        the list and the editing state stay. */
    method CancelAdd()
      modifies this
      ensures !isAddingNew && form == EmptyForm && errors == map[]
      ensures certifications == old(certifications) && editingCert == old(editingCert)
    {
      isAddingNew := false;
      ResetForm();
    }

    /** The edit dialog's Cancel: editing ends and the form is reset; the list
        and the add dialog stay. */
    method CancelEdit()
      modifies this
      ensures editingCert == None && form == EmptyForm && errors == map[]
      ensures certifications == old(certifications) && isAddingNew == old(isAddingNew)
    {
      editingCert := None;
      ResetForm();
    }

    /** Add: on a valid form the new record (fresh id, the form's fields, blank
        CRM fields) goes to the front of the list and the request is sent;
        whatever the answer, the form is reset and the dialog closed. The list
        is then fetched again, which is a separate `Load`. */
    method Add(outcome: Outcome) returns (request: Option<CertRequest>)
      modifies this
      ensures request.Some? <==> FormErrors(old(form)) == map[]
      ensures request.None? ==>
        && certifications == old(certifications) && form == old(form) && errors == FormErrors(old(form))
        && editingCert == old(editingCert) && isAddingNew == old(isAddingNew)
      ensures request.Some? ==>
        && request.value == RequestOf(old(form))
        && certifications == WithNew(old(certifications), NewCertId(|old(certifications)|), old(form))
        && form == EmptyForm && errors == map[] && !isAddingNew && editingCert == old(editingCert)
      ensures request.Some? <==>
        && !IsBlank(old(form).certificateNumber) && !IsBlank(old(form).certificateName)
        && !IsBlank(old(form).issuer) && old(form).issueDate != "" && old(form).expiryDate != ""
        && !DatesOutOfOrder(old(form))
    {
      var f, prev := form, certifications;
      var valid := Validate();
      if !valid {
        return None;
      }
      var r := Commit(prev, NewCertId(|prev|), f);
      request := Some(r);
    }

    /** The success path of Add: the local insert, the request, the reset and
        the closed dialog. */
    method Commit(prev: seq<Cert>, id: string, f: CertForm) returns (r: CertRequest)
      modifies this
      ensures r == RequestOf(f) && certifications == WithNew(prev, id, f)
      ensures form == EmptyForm && errors == map[] && !isAddingNew && editingCert == old(editingCert)
    {
      certifications := WithNew(prev, id, f);
      r := RequestOf(f);
      form := EmptyForm;
      errors := map[];
      isAddingNew := false;
    }

    /** Pencil button: the form is filled from the CRM fields. */
    method EditClick(cert: Cert)
      modifies this
      ensures editingCert == Some(cert)
      ensures form == CertForm(cert.crm.certificationNumber, cert.crm.name, cert.crm.issuedDate,
                               cert.crm.expiryDate, cert.crm.issuer)
      ensures errors == map[]
      ensures certifications == old(certifications) && isAddingNew == old(isAddingNew)
    {
      editingCert := Some(cert);
      form := CertForm(cert.crm.certificationNumber, cert.crm.name, cert.crm.issuedDate,
                       cert.crm.expiryDate, cert.crm.issuer);
      errors := map[];
    }

    /** Update: validation runs first (its record stays when nothing is sent). With a
        valid form and a certificate being edited the request is sent; on
        success every record with that id gets the form's fields and a status
        spread over it, and every other record is left in place. Then the form
        is reset and editing ends. `daysUntilExpiry` is the distance of the
        form's expiry date from now. */
    method Update(outcome: Outcome, daysUntilExpiry: int) returns (request: Option<CertRequest>)
      modifies this
      ensures request.Some? <==> old(editingCert).Some? && FormErrors(old(form)) == map[]
      ensures request.None? ==>
        && certifications == old(certifications) && form == old(form) && editingCert == old(editingCert)
        && errors == FormErrors(old(form))
      ensures request.Some? ==>
        && old(editingCert).Some? && request.value == RequestOf(old(form))
        && form == EmptyForm && errors == map[] && editingCert == None
      ensures request.Some? && outcome.Success? ==>
        && |certifications| == |old(certifications)|
        && forall k :: 0 <= k < |certifications| ==>
             certifications[k] == (
               if old(certifications)[k].id == old(editingCert).value.id
               then old(certifications)[k].(form := Some(old(form)), status := Some(GetStatus(daysUntilExpiry)))
               else old(certifications)[k])
      ensures request.Some? && !outcome.Success? ==> certifications == old(certifications)
      ensures isAddingNew == old(isAddingNew)
    {
      var valid := Validate();
      if !valid || editingCert.None? {
        return None;
      }
      request := Some(RequestOf(form));
      if outcome.Success? {
        var editedId := editingCert.value.id;
        var f := form;
        var status := GetStatus(daysUntilExpiry);
        var prev := certifications;
        certifications := seq(|prev|, k requires 0 <= k < |prev| =>
          if prev[k].id == editedId then prev[k].(form := Some(f), status := Some(status)) else prev[k]);
      }
      ResetForm();
      editingCert := None;
    }

    /** Delete: on success exactly the records with that id are removed. */
    method Delete(certId: string, outcome: Outcome)
      modifies this
      ensures certifications == if outcome.Success? then WithoutId(old(certifications), CertId, certId) else old(certifications)
      ensures form == old(form) && errors == old(errors) && editingCert == old(editingCert)
        && isAddingNew == old(isAddingNew)
    {
      if outcome.Success? {
        certifications := WithoutId(certifications, CertId, certId);
      }
    }
  }
}
