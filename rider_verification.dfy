/** The rider identity-verification form: NIN, BVN and driver's licence
    number checks, the digit-only input sanitiser, document upload checks that
    keep a map of per-field errors, and the submit routine that builds that
    map before anything is sent. Character classes are ASCII; upper-casing is
    ASCII upper-casing. */
module RiderDocs {
  import opened Common

  predicate IsDigit(c: char) { '0' <= c <= '9' }

  predicate IsUpperAlnum(c: char) { 'A' <= c <= 'Z' || IsDigit(c) }

  predicate IsAsciiAlnum(c: char) { IsUpperAlnum(c) || 'a' <= c <= 'z' }

  /** The two character classes the form's patterns use: `\d` and `[A-Z0-9]`. */
  datatype CharClass = Digits | UpperAlnum

  predicate InClass(c: char, k: CharClass)
  {
    match k
    case Digits => IsDigit(c)
    case UpperAlnum => IsUpperAlnum(c)
  }

  /** `/^[k]+$/.test(s)`, matched one character at a time from the left. */
  predicate OneOrMore(s: string, k: CharClass)
    decreases |s|
  {
    s != [] && InClass(s[0], k) && (|s| == 1 || OneOrMore(s[1..], k))
  }

  /** A whole-string class pattern holds exactly when the string is non-empty
      and every character is in the class. */
  lemma {:induction false} OneOrMoreIff(s: string, k: CharClass)
    ensures OneOrMore(s, k) <==> s != [] && forall i | 0 <= i < |s| :: InClass(s[i], k)
  {
    if |s| > 1 {
      OneOrMoreIff(s[1..], k);
      if forall i | 0 <= i < |s| :: InClass(s[i], k) {
        assert forall i | 0 <= i < |s| - 1 :: InClass(s[1..][i], k) by {
          forall i | 0 <= i < |s| - 1 ensures InClass(s[1..][i], k) {
            assert s[1..][i] == s[i + 1];
          }
        }
      }
      if OneOrMore(s, k) {
        forall i | 0 <= i < |s| ensures InClass(s[i], k) {
          if i > 0 {
            assert s[i] == s[1..][i - 1];
          }
        }
      }
    }
  }

  /** `validateNIN`: `/^\d{11}$/`. */
  function ValidateNIN(nin: string): (r: bool)
    ensures r ==> |nin| == 11 && IsDigit(nin[0])
  {
    |nin| == 11 && OneOrMore(nin, Digits)
  }

  /** `validateBVN`: the same pattern as the NIN. */
  function ValidateBVN(bvn: string): (r: bool)
    ensures r ==> |bvn| == 11 && IsDigit(bvn[0])
  {
    |bvn| == 11 && OneOrMore(bvn, Digits)
  }

  /** A NIN is valid exactly when it is eleven ASCII digits. */
  lemma NinIff(nin: string)
    ensures ValidateNIN(nin) <==> |nin| == 11 && forall i | 0 <= i < |nin| :: IsDigit(nin[i])
  {
    OneOrMoreIff(nin, Digits);
  }

  /** The BVN rule is the NIN rule. */
  lemma BvnIsNinRule(s: string)
    ensures ValidateBVN(s) == ValidateNIN(s)
  {
  }

  function UpperChar(c: char): (r: char)
  {
    if 'a' <= c <= 'z' then (c as int - 32) as char else c
  }

  /** `s.toUpperCase()` on ASCII letters. */
  function ToUpper(s: string): (r: string)
    ensures |r| == |s|
  {
    if s == [] then [] else [UpperChar(s[0])] + ToUpper(s[1..])
  }

  lemma {:induction false} ToUpperAt(s: string, i: int)
    requires 0 <= i < |s|
    ensures ToUpper(s)[i] == UpperChar(s[i])
  {
    if i > 0 {
      ToUpperAt(s[1..], i - 1);
    }
  }

  /** `validateLicenseNumber`: `/^[A-Z0-9]{8,}$/` on the upper-cased input. */
  function ValidateLicenseNumber(license: string): (r: bool)
    ensures r ==> |license| >= 8
  {
    |license| >= 8 && OneOrMore(ToUpper(license), UpperAlnum)
  }

  /** Upper-casing before matching `[A-Z0-9]` makes the licence check
      case-blind: at least eight characters, each an ASCII letter of either
      case or a digit. */
  lemma LicenseIff(license: string)
    ensures ValidateLicenseNumber(license) <==>
      |license| >= 8 && forall i | 0 <= i < |license| :: IsAsciiAlnum(license[i])
  {
    OneOrMoreIff(ToUpper(license), UpperAlnum);
    forall i | 0 <= i < |license|
      ensures IsUpperAlnum(ToUpper(license)[i]) <==> IsAsciiAlnum(license[i])
    {
      ToUpperAt(license, i);
    }
  }

  /** Upper-casing is idempotent, so re-checking the upper-cased input that the
      licence field stores gives the same verdict. */
  lemma {:induction false} ToUpperIdempotent(s: string)
    ensures ToUpper(ToUpper(s)) == ToUpper(s)
  {
    if s != [] {
      ToUpperIdempotent(s[1..]);
      assert ToUpper(s)[1..] == ToUpper(s[1..]);
    }
  }

  // ----- The NIN/BVN input sanitiser -----

  /** `s.replace(/\D/g, '')`. */
  function DigitsOnly(s: string): (r: string)
    ensures |r| <= |s|
    ensures forall i | 0 <= i < |r| :: IsDigit(r[i])
  {
    if s == [] then []
    else (if IsDigit(s[0]) then [s[0]] else []) + DigitsOnly(s[1..])
  }

  /** `s.replace(/\D/g, '').slice(0, 11)`. */
  function SanitizeDigits(s: string): (r: string)
    ensures |r| <= 11
    ensures forall i | 0 <= i < |r| :: IsDigit(r[i])
  {
    Take(DigitsOnly(s), 11)
  }

  /** A string of digits passes through the digit filter unchanged. */
  lemma {:induction false} DigitsOnlyKeepsDigits(s: string)
    requires forall i | 0 <= i < |s| :: IsDigit(s[i])
    ensures DigitsOnly(s) == s
  {
    if s != [] {
      DigitsOnlyKeepsDigits(s[1..]);
    }
  }

  /** Every character is kept or dropped on its own, in order: the filter
      distributes over concatenation. */
  lemma {:induction false} DigitsOnlyConcat(a: string, b: string)
    ensures DigitsOnly(a + b) == DigitsOnly(a) + DigitsOnly(b)
  {
    if a == [] {
      assert a + b == b;
    } else {
      var head := if IsDigit(a[0]) then [a[0]] else [];
      assert (a + b)[0] == a[0] && (a + b)[1..] == a[1..] + b;
      calc {
        DigitsOnly(a + b);
        head + DigitsOnly(a[1..] + b);
        { DigitsOnlyConcat(a[1..], b); }
        head + (DigitsOnly(a[1..]) + DigitsOnly(b));
        (head + DigitsOnly(a[1..])) + DigitsOnly(b);
      }
    }
  }

  /** Every digit of the input is kept, as often as it occurs, and nothing
      else is. */
  lemma {:induction false} DigitsOnlyCounts(s: string, c: char)
    ensures multiset(DigitsOnly(s))[c] == if IsDigit(c) then multiset(s)[c] else 0
  {
    if s != [] {
      DigitsOnlyCounts(s[1..], c);
      assert s == [s[0]] + s[1..];
    }
  }

  /** Sanitising twice is sanitising once, and what the field holds already
      (at most eleven digits) is left alone. */
  lemma SanitizeIdempotent(s: string)
    ensures SanitizeDigits(SanitizeDigits(s)) == SanitizeDigits(s)
  {
    DigitsOnlyKeepsDigits(SanitizeDigits(s));
  }

  /** Through the sanitised input, NIN validity means that at least eleven
      digits were typed. */
  lemma NinAfterSanitize(s: string)
    ensures ValidateNIN(SanitizeDigits(s)) <==> |DigitsOnly(s)| >= 11
  {
    NinIff(SanitizeDigits(s));
  }

  // ----- Document uploads -----

  datatype File = File(name: string, mimeType: string, size: int)

  const AllowedTypes: seq<string> := ["image/jpeg", "image/png", "image/jpg", "application/pdf"]
  const MaxFileSize := 5 * 1024 * 1024
  const TypeErrorText := "Please upload a valid image (JPEG, PNG) or PDF file"
  const SizeErrorText := "File size must be less than 5MB"

  /** The error an upload draws, the type check before the size check. */
  function UploadError(f: File): (r: Option<string>)
    ensures r.None? <==> f.mimeType in AllowedTypes && f.size <= MaxFileSize
    ensures f.mimeType !in AllowedTypes ==> r == Some(TypeErrorText)
    ensures f.mimeType in AllowedTypes && f.size > MaxFileSize ==> r == Some(SizeErrorText)
  {
    if f.mimeType !in AllowedTypes then Some(TypeErrorText)
    else if f.size > MaxFileSize then Some(SizeErrorText)
    else None
  }

  /** Exactly 5 MiB is accepted, one byte more is not. */
  lemma SizeBoundary(name: string, t: string)
    requires t in AllowedTypes
    ensures UploadError(File(name, t, 5242880)).None?
    ensures UploadError(File(name, t, 5242881)) == Some(SizeErrorText)
  {
  }

  // ----- Submission -----

  /** The keys of the `errors` map; `ninCard` and `driversLicense` are also the
      upload slots. */
  datatype Field = NinNumber | BvnNumber | LicenseNumber | ExpiryDate | NinCard | DriversLicense

  /** The form's inputs as the submit routine reads them. `expiryMs` is
      `new Date(expiryDate)` in milliseconds, `None` when that date is invalid
      (an invalid date never compares as expired). */
  datatype Entries = Entries(nin: string, bvn: string, license: string, expiryDate: string,
                             expiryMs: Option<int>, hasNinCard: bool, hasLicenseFile: bool)

  /** The error, if any, that submitting `e` at time `now` records for field `f`. */
  function FieldError(f: Field, e: Entries, now: int): (r: Option<string>)
    ensures r.Some? ==> r.value != ""
    ensures f == NinCard ==> (r.Some? <==> !e.hasNinCard)
    ensures f == DriversLicense ==> (r.Some? <==> !e.hasLicenseFile)
    ensures f == ExpiryDate && e.expiryMs.None? ==> (r.Some? <==> e.expiryDate == "")
  {
    match f
    case NinNumber => if !ValidateNIN(e.nin) then Some("NIN must be exactly 11 digits") else None
    case BvnNumber =>
      if e.bvn != "" && !ValidateBVN(e.bvn) then Some("BVN must be exactly 11 digits") else None
    case LicenseNumber =>
      if !ValidateLicenseNumber(e.license) then Some("Please enter a valid driver's license number")
      else None
    case ExpiryDate =>
      if e.expiryDate == "" then Some("Expiry date is required")
      else if e.expiryMs.Some? && e.expiryMs.value <= now then Some("License must not be expired")
      else None
    case NinCard => if !e.hasNinCard then Some("NIN card image is required") else None
    case DriversLicense =>
      if !e.hasLicenseFile then Some("Driver's license image is required") else None
  }

  /** The position of each check in the submit routine. */
  function Rank(f: Field): nat
  {
    match f
    case NinNumber => 0
    case BvnNumber => 1
    case LicenseNumber => 2
    case ExpiryDate => 3
    case NinCard => 4
    case DriversLicense => 5
  }

  const AllFields: nat := 6

  /** `m` holds exactly the errors of the first `done` checks. */
  ghost predicate AgreesOn(m: map<Field, string>, done: nat, e: Entries, now: int)
  {
    forall f: Field ::
      (f in m <==> Rank(f) < done && FieldError(f, e, now).Some?) &&
      (f in m ==> m[f] == FieldError(f, e, now).value)
  }

  /** One more check of the submit routine keeps the map in step. */
  lemma Checked(m: map<Field, string>, f: Field, e: Entries, now: int)
    requires AgreesOn(m, Rank(f), e, now)
    ensures var err := FieldError(f, e, now);
      AgreesOn(if err.Some? then m[f := err.value] else m, Rank(f) + 1, e, now)
  {
  }

  /** The submit routine's `newErrors`, built one check at a time. */
  method CollectErrors(e: Entries, now: int) returns (newErrors: map<Field, string>)
    ensures AgreesOn(newErrors, AllFields, e, now)
  {
    newErrors := map[];
    Checked(newErrors, NinNumber, e, now);
    if !ValidateNIN(e.nin) {
      newErrors := newErrors[NinNumber := "NIN must be exactly 11 digits"];
    }
    Checked(newErrors, BvnNumber, e, now);
    if e.bvn != "" && !ValidateBVN(e.bvn) {
      newErrors := newErrors[BvnNumber := "BVN must be exactly 11 digits"];
    }
    Checked(newErrors, LicenseNumber, e, now);
    if !ValidateLicenseNumber(e.license) {
      newErrors := newErrors[LicenseNumber := "Please enter a valid driver's license number"];
    }
    Checked(newErrors, ExpiryDate, e, now);
    if e.expiryDate == "" {
      newErrors := newErrors[ExpiryDate := "Expiry date is required"];
    } else if e.expiryMs.Some? && e.expiryMs.value <= now {
      newErrors := newErrors[ExpiryDate := "License must not be expired"];
    }
    Checked(newErrors, NinCard, e, now);
    if !e.hasNinCard {
      newErrors := newErrors[NinCard := "NIN card image is required"];
    }
    Checked(newErrors, DriversLicense, e, now);
    if !e.hasLicenseFile {
      newErrors := newErrors[DriversLicense := "Driver's license image is required"];
    }
  }

  /** A submission goes through exactly when every field passes: a valid NIN,
      an empty or valid BVN, a valid licence number, an expiry date present
      and not past, and both documents uploaded. */
  lemma NoErrorsIff(m: map<Field, string>, e: Entries, now: int)
    requires AgreesOn(m, AllFields, e, now)
    ensures m == map[] <==>
      ValidateNIN(e.nin) && (e.bvn == "" || ValidateBVN(e.bvn)) && ValidateLicenseNumber(e.license) &&
      e.expiryDate != "" && !(e.expiryMs.Some? && e.expiryMs.value <= now) &&
      e.hasNinCard && e.hasLicenseFile
  {
    if m == map[] {
      assert FieldError(NinNumber, e, now).None? && FieldError(BvnNumber, e, now).None?;
      assert FieldError(LicenseNumber, e, now).None? && FieldError(ExpiryDate, e, now).None?;
      assert FieldError(NinCard, e, now).None? && FieldError(DriversLicense, e, now).None?;
    } else {
      var f :| f in m;
    }
  }

  /** An empty BVN never draws an error; a typed one must pass the BVN rule. */
  lemma BvnOptional(e: Entries, now: int)
    ensures FieldError(BvnNumber, e, now).Some? <==> e.bvn != "" && !ValidateBVN(e.bvn)
  {
  }

  /** A missing expiry date is reported as missing, never as expired. */
  lemma MissingExpiryFirst(e: Entries, now: int)
    requires e.expiryDate == ""
    ensures FieldError(ExpiryDate, e, now) == Some("Expiry date is required")
  {
  }

  /** The `FormData` sent by a successful submission. */
  datatype Submission = Submission(ninNumber: string, bvnNumber: string, licenseNumber: string,
                                   expiryDate: string, ninCard: File, driversLicense: File)

  const SubmittedText := "Verification documents submitted successfully! We will review your documents within 24-48 hours."

  predicate Sanitized(s: string)
  {
    |s| <= 11 && forall i | 0 <= i < |s| :: IsDigit(s[i])
  }

  class RiderVerificationPage {
    var ninNumber: string
    var bvnNumber: string
    var licenseNumber: string
    var expiryDate: string
    var ninCardFile: Option<File>
    var driversLicenseFile: Option<File>
    var isSubmitting: bool
    var errors: map<Field, string>
    var successMessage: string

    /** The NIN and BVN fields only ever hold what the sanitiser lets through. */
    ghost predicate Valid()
      reads this
    {
      Sanitized(ninNumber) && Sanitized(bvnNumber)
    }

    constructor ()
      ensures Valid()
      ensures ninNumber == "" && bvnNumber == "" && licenseNumber == "" && expiryDate == ""
      ensures ninCardFile.None? && driversLicenseFile.None? && !isSubmitting
      ensures errors == map[] && successMessage == ""
    {
      ninNumber, bvnNumber, licenseNumber, expiryDate := "", "", "", "";
      ninCardFile, driversLicenseFile := None, None;
      isSubmitting := false;
      errors := map[];
      successMessage := "";
    }

    method SetNinNumber(raw: string)
      requires Valid()
      modifies this`ninNumber
      ensures Valid() && ninNumber == SanitizeDigits(raw)
    {
      ninNumber := SanitizeDigits(raw);
    }

    method SetBvnNumber(raw: string)
      requires Valid()
      modifies this`bvnNumber
      ensures Valid() && bvnNumber == SanitizeDigits(raw)
    {
      bvnNumber := SanitizeDigits(raw);
    }

    /** The licence field stores its input upper-cased. */
    method SetLicenseNumber(raw: string)
      requires Valid()
      modifies this`licenseNumber
      ensures Valid() && licenseNumber == ToUpper(raw)
    {
      licenseNumber := ToUpper(raw);
    }

    method SetExpiryDate(value: string)
      requires Valid()
      modifies this`expiryDate
      ensures Valid() && expiryDate == value
    {
      expiryDate := value;
    }

    /** `handleFileUpload(file, slot)`: no file changes nothing; a rejected
        file sets that slot's error and is not kept; an accepted one clears
        only that slot's error and is kept only in its own slot. */
    method HandleFileUpload(file: Option<File>, slot: Field)
      requires Valid()
      modifies this`errors, this`ninCardFile, this`driversLicenseFile
      ensures Valid()
      ensures file.None? ==>
        errors == old(errors) && ninCardFile == old(ninCardFile) &&
        driversLicenseFile == old(driversLicenseFile)
      ensures file.Some? && UploadError(file.value).Some? ==>
        errors == old(errors)[slot := UploadError(file.value).value] &&
        ninCardFile == old(ninCardFile) && driversLicenseFile == old(driversLicenseFile)
      ensures file.Some? && UploadError(file.value).None? ==>
        errors == old(errors) - {slot} &&
        ninCardFile == (if slot == NinCard then file else old(ninCardFile)) &&
        driversLicenseFile == (if slot == DriversLicense then file else old(driversLicenseFile))
    {
      if file.None? {
        return;
      }
      var f := file.value;
      if f.mimeType !in AllowedTypes {
        errors := errors[slot := TypeErrorText];
        return;
      }
      if f.size > MaxFileSize {
        errors := errors[slot := SizeErrorText];
        return;
      }
      errors := errors - {slot};
      if slot == NinCard {
        ninCardFile := file;
      } else if slot == DriversLicense {
        driversLicenseFile := file;
      }
    }

    /** The form's current entries, for a check at time of submission. */
    function Current(expiryMs: Option<int>): Entries
      reads this
    {
      Entries(ninNumber, bvnNumber, licenseNumber, expiryDate, expiryMs,
              ninCardFile.Some?, driversLicenseFile.Some?)
    }

    /** `handleSubmit`: the error map replaces `errors`; with any error nothing
        is submitted, otherwise the documents (licence upper-cased) go out and
        the success text is shown. The flag is down again either way. Since
        the NIN and BVN fields hold only sanitised digits, their checks come
        down to their lengths. */
    method HandleSubmit(now: int, expiryMs: Option<int>) returns (payload: Option<Submission>)
      requires Valid()
      modifies this`errors, this`isSubmitting, this`successMessage
      ensures Valid() && !isSubmitting
      ensures AgreesOn(errors, AllFields, Current(expiryMs), now)
      ensures payload.Some? <==> errors == map[]
      ensures NinNumber in errors <==> |ninNumber| != 11
      ensures BvnNumber in errors <==> bvnNumber != "" && |bvnNumber| != 11
      ensures payload.None? ==> successMessage == old(successMessage)
      ensures payload.Some? ==>
        ninCardFile.Some? && driversLicenseFile.Some? &&
        payload.value == Submission(ninNumber, bvnNumber, ToUpper(licenseNumber), expiryDate,
                                    ninCardFile.value, driversLicenseFile.value) &&
        successMessage == SubmittedText
    {
      errors := map[];
      isSubmitting := true;
      var newErrors := CollectErrors(Current(expiryMs), now);
      NoErrorsIff(newErrors, Current(expiryMs), now);
      NinIff(ninNumber);
      NinIff(bvnNumber);
      BvnIsNinRule(bvnNumber);
      if newErrors != map[] {
        errors := newErrors;
        isSubmitting := false;
        payload := None;
        return;
      }
      payload := Some(Submission(ninNumber, bvnNumber, ToUpper(licenseNumber), expiryDate,
                                 ninCardFile.value, driversLicenseFile.value));
      successMessage := SubmittedText;
      isSubmitting := false;
    }
  }
}
