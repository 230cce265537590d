/** The change-password form: field-by-field validation into an error record,
    and the strength meter shown under the new password. */
module ChangePassword {
  import opened Common

  const CurrentRequired := "Current password is required"
  const NewRequired := "New password is required"
  const TooShort := "Password must be at least 8 characters long"
  const BadComposition := "Password must contain uppercase, lowercase, and number"
  const ConfirmRequired := "Please confirm your new password"
  const Mismatch := "Passwords do not match"
  const MustDiffer := "New password must be different from current password"

  predicate IsLower(c: char) { 'a' <= c <= 'z' }
  predicate IsUpper(c: char) { 'A' <= c <= 'Z' }

  predicate HasLower(p: string) { exists i :: 0 <= i < |p| && IsLower(p[i]) }
  predicate HasUpper(p: string) { exists i :: 0 <= i < |p| && IsUpper(p[i]) }
  predicate HasDigit(p: string) { exists i :: 0 <= i < |p| && IsDigit(p[i]) }
  predicate HasOther(p: string) {
    exists i :: 0 <= i < |p| && !IsLower(p[i]) && !IsUpper(p[i]) && !IsDigit(p[i])
  }

  /** The look-ahead pattern: a lowercase letter, an uppercase letter and a
      digit somewhere. */
  predicate WellComposed(p: string) {
    HasLower(p) && HasUpper(p) && HasDigit(p)
  }

  /** What the form accepts: a current password, a new one of at least eight
      characters that is well composed and differs from the current one, and a
      matching confirmation. */
  predicate Accepted(cur: string, nw: string, confirm: string) {
    cur != "" && cur != nw && nw == confirm && |nw| >= 8 && WellComposed(nw)
  }

  /** The error record `validateForm` builds, in source order: the "must be
      different" check comes last and overwrites any earlier new-password
      message. */
  function FormErrors(cur: string, nw: string, confirm: string): map<string, string> {
    var e0: map<string, string> := if cur == "" then map["currentPassword" := CurrentRequired] else map[];
    var e1 :=
      if nw == "" then e0["newPassword" := NewRequired]
      else if |nw| < 8 then e0["newPassword" := TooShort]
      else if !WellComposed(nw) then e0["newPassword" := BadComposition]
      else e0;
    var e2 :=
      if confirm == "" then e1["confirmPassword" := ConfirmRequired]
      else if nw != confirm then e1["confirmPassword" := Mismatch]
      else e1;
    if cur == nw then e2["newPassword" := MustDiffer] else e2
  }

  /** Which field gets a message, and which message. */
  lemma FormErrorsKeys(cur: string, nw: string, confirm: string)
    ensures FormErrors(cur, nw, confirm).Keys <= {"currentPassword", "newPassword", "confirmPassword"}
    ensures "currentPassword" in FormErrors(cur, nw, confirm) <==> cur == ""
    ensures "currentPassword" in FormErrors(cur, nw, confirm) ==>
      FormErrors(cur, nw, confirm)["currentPassword"] == CurrentRequired
    ensures "newPassword" in FormErrors(cur, nw, confirm) <==>
      nw == "" || |nw| < 8 || !WellComposed(nw) || cur == nw
    ensures "newPassword" in FormErrors(cur, nw, confirm) ==>
      FormErrors(cur, nw, confirm)["newPassword"] == (
        if cur == nw then MustDiffer
        else if nw == "" then NewRequired
        else if |nw| < 8 then TooShort
        else BadComposition)
    ensures "confirmPassword" in FormErrors(cur, nw, confirm) <==> confirm == "" || nw != confirm
    ensures "confirmPassword" in FormErrors(cur, nw, confirm) ==>
      FormErrors(cur, nw, confirm)["confirmPassword"] == (if confirm == "" then ConfirmRequired else Mismatch)
  {
  }

  /** The record is empty exactly when the form is accepted. */
  lemma FormErrorsEmpty(cur: string, nw: string, confirm: string)
    ensures FormErrors(cur, nw, confirm) == map[] <==> Accepted(cur, nw, confirm)
  {
    var e := FormErrors(cur, nw, confirm);
    FormErrorsKeys(cur, nw, confirm);
    if !Accepted(cur, nw, confirm) {
      assert "currentPassword" in e || "newPassword" in e || "confirmPassword" in e;
    }
  }

  class ChangePasswordForm {
    var currentPassword: string
    var newPassword: string
    var confirmPassword: string
    var errors: map<string, string>

    constructor ()
      ensures currentPassword == "" && newPassword == "" && confirmPassword == "" && errors == map[]
    {
      currentPassword := "";
      newPassword := "";
      confirmPassword := "";
      errors := map[];
    }

    /** The form's `validateForm`: builds a fresh error record field by field,
        stores it, and reports whether it is empty. */
    method Validate() returns (valid: bool)
      modifies this
      ensures currentPassword == old(currentPassword) && newPassword == old(newPassword)
        && confirmPassword == old(confirmPassword)
      ensures errors == FormErrors(currentPassword, newPassword, confirmPassword)
      ensures valid <==> errors == map[]
      ensures valid <==> Accepted(currentPassword, newPassword, confirmPassword)
    {
      var newErrors: map<string, string> := map[];
      if currentPassword == "" {
        newErrors := newErrors["currentPassword" := CurrentRequired];
      }
      if newPassword == "" {
        newErrors := newErrors["newPassword" := NewRequired];
      } else if |newPassword| < 8 {
        newErrors := newErrors["newPassword" := TooShort];
      } else if !WellComposed(newPassword) {
        newErrors := newErrors["newPassword" := BadComposition];
      }
      if confirmPassword == "" {
        newErrors := newErrors["confirmPassword" := ConfirmRequired];
      } else if newPassword != confirmPassword {
        newErrors := newErrors["confirmPassword" := Mismatch];
      }
      if currentPassword == newPassword {
        newErrors := newErrors["newPassword" := MustDiffer];
      }
      errors := newErrors;
      FormErrorsEmpty(currentPassword, newPassword, confirmPassword);
      valid := newErrors == map[];
    }

    /** Typing stores the value and blanks that field's message if it has a
        non-empty one (the key itself stays). */
    method InputChange(field: string, value: string)
      modifies this
      ensures field == "currentPassword" ==> currentPassword == value
      ensures field != "currentPassword" ==> currentPassword == old(currentPassword)
      ensures field == "newPassword" ==> newPassword == value
      ensures field != "newPassword" ==> newPassword == old(newPassword)
      ensures field == "confirmPassword" ==> confirmPassword == value
      ensures field != "confirmPassword" ==> confirmPassword == old(confirmPassword)
      ensures errors == if field in old(errors) && old(errors)[field] != "" then old(errors)[field := ""] else old(errors)
    {
      if field == "currentPassword" {
        currentPassword := value;
      } else if field == "newPassword" {
        newPassword := value;
      } else if field == "confirmPassword" {
        confirmPassword := value;
      }
      if field in errors && errors[field] != "" {
        errors := errors[field := ""];
      }
    }

    /** Submitting clears the three fields exactly when the form is accepted;
        a refused form keeps its values and shows the record for them. */
    method Submit() returns (changed: bool)
      modifies this
      ensures changed <==> Accepted(old(currentPassword), old(newPassword), old(confirmPassword))
      ensures changed ==> currentPassword == "" && newPassword == "" && confirmPassword == "" && errors == map[]
      ensures !changed ==>
        && currentPassword == old(currentPassword) && newPassword == old(newPassword)
        && confirmPassword == old(confirmPassword)
        && errors == FormErrors(old(currentPassword), old(newPassword), old(confirmPassword))
    {
      changed := Validate();
      if changed {
        currentPassword := "";
        newPassword := "";
        confirmPassword := "";
      }
    }
  }

  // ---------------------------------------------------------------------------
  // Strength meter

  function B2N(b: bool): nat { if b then 1 else 0 }

  /** The number of passed checks among length, lower case, upper case, digit
      and other character; 0 for the empty password. */
  function Strength(p: string): (s: nat)
    ensures p == "" ==> s == 0
    ensures p != "" ==> 1 <= s <= 5
    ensures s == 5 <==> |p| >= 8 && HasLower(p) && HasUpper(p) && HasDigit(p) && HasOther(p)
  {
    if p == "" then 0
    else
      assert IsLower(p[0]) || IsUpper(p[0]) || IsDigit(p[0]) || (!IsLower(p[0]) && !IsUpper(p[0]) && !IsDigit(p[0]));
      B2N(|p| >= 8) + B2N(HasLower(p)) + B2N(HasUpper(p)) + B2N(HasDigit(p)) + B2N(HasOther(p))
  }

  const StrengthLabels: seq<string> := ["Very Weak", "Weak", "Fair", "Good", "Strong"]

  /** `strengthLabels[strength - 1] || ""`. */
  function StrengthText(p: string): (t: string)
    ensures t == "" <==> p == ""
    ensures p != "" ==> t == StrengthLabels[Strength(p) - 1]
  {
    var s := Strength(p);
    if 1 <= s <= 5 then StrengthLabels[s - 1] else ""
  }

  /** A password the form accepts scores at least "Good". */
  lemma AcceptedIsGood(p: string)
    requires |p| >= 8 && WellComposed(p)
    ensures Strength(p) >= 4
    ensures StrengthText(p) == "Good" || StrengthText(p) == "Strong"
  {
  }

  lemma StrengthExamples()
    ensures Strength("a") == 1 && StrengthText("a") == "Very Weak"
    ensures Strength("Passw0rd") == 4 && StrengthText("Passw0rd") == "Good"
  {
    assert IsLower("a"[0]);
    assert !HasUpper("a") && !HasDigit("a") && !HasOther("a");
    var p := "Passw0rd";
    assert IsUpper(p[0]) && IsLower(p[1]) && IsDigit(p[5]);
    assert !HasOther(p) by {
      forall i | 0 <= i < |p|
        ensures IsLower(p[i]) || IsUpper(p[i]) || IsDigit(p[i])
      {
      }
    }
  }
}
