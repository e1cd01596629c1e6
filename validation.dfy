/** The hand-written form validators: leaf predicates over strings (required, length
    bounds, e-mail and Nigerian phone patterns, numeric ranges) and three form validators
    that collect at most one error per field, the first failing check of its chain. */
module Validation {
  import opened Wrappers
  import opened Text
  import opened Lists
  import FileUpload

  datatype FieldError = FieldError(field: string, message: string)
  datatype ValidationResult = ValidationResult(isValid: bool, errors: seq<FieldError>)

  /** A value handed to `validateRequired`: a string, a number, `undefined` or `null`. */
  datatype FormValue = Str(s: string) | Num(n: int) | Undefined | Null

  // ---------------------------------------------------------------------------
  // E-mail: /^[^\s@]+@[^\s@]+\.[^\s@]+$/

  predicate PlainChar(c: char) {
    !IsSpace(c) && c != '@'
  }

  /** A non-empty run of characters that are neither white space nor '@' (`[^\s@]+`). */
  predicate Plain(s: string) {
    |s| > 0 && forall i :: 0 <= i < |s| ==> PlainChar(s[i])
  }

  /** What the regular expression denotes: three plain runs joined by '@' and a '.'. */
  ghost predicate EmailPattern(s: string) {
    exists a, b, c :: Plain(a) && Plain(b) && Plain(c) && s == a + "@" + b + "." + c
  }

  predicate HasInnerDot(d: string) {
    exists j :: 0 < j < |d| - 1 && d[j] == '.'
  }

  /** `validateEmail`, read as character conditions: no white space, exactly one '@' with
      something before it, and after it a '.' that is neither the first nor the last character. */
  predicate ValidateEmail(s: string) {
    var k := IndexOf(s, "@");
    && (forall i :: 0 <= i < |s| ==> !IsSpace(s[i]))
    && k > 0
    && (forall i :: k < i < |s| ==> s[i] != '@')
    && HasInnerDot(s[k + 1..])
  }

  lemma OccursAtChar(s: string, c: char, i: int)
    ensures OccursAt(s, [c], i) <==> 0 <= i < |s| && s[i] == c
  {
    if 0 <= i < |s| {
      assert s[i..i + 1] == [s[i]];
    }
  }

  /** The character reading agrees with the regular expression, in both directions. */
  lemma EmailIff(s: string)
    ensures ValidateEmail(s) <==> EmailPattern(s)
  {
    if ValidateEmail(s) {
      EmailSound(s);
    }
    if EmailPattern(s) {
      var a, b, c :| Plain(a) && Plain(b) && Plain(c) && s == a + "@" + b + "." + c;
      EmailComplete(s, a, b, c);
    }
  }

  lemma EmailSound(s: string)
    requires ValidateEmail(s)
    ensures EmailPattern(s)
  {
    var k := IndexOf(s, "@");
    OccursAtChar(s, '@', k);
    var d := s[k + 1..];
    var j :| 0 < j < |d| - 1 && d[j] == '.';
    var a, b, c := s[..k], d[..j], d[j + 1..];
    forall i | 0 <= i < k ensures s[i] != '@' {
      OccursAtChar(s, '@', i);
    }
    assert Plain(a);
    assert Plain(b);
    assert Plain(c);
    assert d == b + "." + c;
    assert s == a + "@" + b + "." + c;
  }

  lemma EmailComplete(s: string, a: string, b: string, c: string)
    requires Plain(a) && Plain(b) && Plain(c) && s == a + "@" + b + "." + c
    ensures ValidateEmail(s)
  {
    var k := IndexOf(s, "@");
    EmailAtPosition(s, a, b, c);
    assert k == |a|;
    forall i | 0 <= i < |s| ensures !IsSpace(s[i]) && (i != |a| ==> s[i] != '@') {
      if i < |a| {
        assert s[i] == a[i];
      } else if |a| < i <= |a| + |b| {
        assert s[i] == b[i - |a| - 1];
      } else if i > |a| + |b| + 1 {
        assert s[i] == c[i - |a| - |b| - 2];
      }
    }
    var d := s[k + 1..];
    assert d == b + "." + c;
    assert d[|b|] == '.';
  }

  /** The first '@' of a pattern match is the one after the local part. */
  lemma EmailAtPosition(s: string, a: string, b: string, c: string)
    requires Plain(a) && Plain(b) && Plain(c) && s == a + "@" + b + "." + c
    ensures IndexOf(s, "@") == |a|
  {
    OccursAtChar(s, '@', |a|);
    forall i | 0 <= i < |a| ensures !OccursAt(s, "@", i) {
      OccursAtChar(s, '@', i);
      assert s[i] == a[i];
    }
  }

  // ---------------------------------------------------------------------------
  // Phone: /^(\+234|0)?[789][01]\d{8}$/ applied to the input with all white space removed

  predicate IsDigit(c: char) { '0' <= c <= '9' }

  /** `[789][01]\d{8}`. */
  predicate PhoneCore(t: string) {
    && |t| == 10
    && (t[0] == '7' || t[0] == '8' || t[0] == '9')
    && (t[1] == '0' || t[1] == '1')
    && forall i :: 2 <= i < 10 ==> IsDigit(t[i])
  }

  /** What the regular expression denotes: the core with no prefix, "0" or "+234". */
  ghost predicate PhonePattern(t: string) {
    || PhoneCore(t)
    || (StartsWith(t, "0") && PhoneCore(t[1..]))
    || (StartsWith(t, "+234") && PhoneCore(t[4..]))
  }

  predicate NotSpace(c: char) { !IsSpace(c) }

  /** `phone.replace(/\s/g, '')`. */
  function StripSpaces(s: string): (r: string)
  {
    Filter(NotSpace, s)
  }

  /** `validatePhone`, dispatching on the length of the stripped number. */
  predicate ValidatePhone(phone: string) {
    var t := StripSpaces(phone);
    if |t| == 10 then PhoneCore(t)
    else if |t| == 11 then t[0] == '0' && PhoneCore(t[1..])
    else if |t| == 14 then t[..4] == "+234" && PhoneCore(t[4..])
    else false
  }

  /** The length dispatch accepts exactly the strings the regular expression matches. */
  lemma PhoneIff(phone: string)
    ensures ValidatePhone(phone) <==> PhonePattern(StripSpaces(phone))
  {
  }

  /** White space anywhere in the input is irrelevant, and the stripped number has none. */
  lemma StripSpacesClean(s: string)
    ensures forall c :: c in StripSpaces(s) ==> !IsSpace(c)
    ensures StripSpaces(StripSpaces(s)) == StripSpaces(s)
  {
    FilterAllPass(NotSpace, StripSpaces(s));
  }

  /** Removing white space from a string that has none changes nothing. */
  lemma StripSpacesNone(s: string)
    requires forall i :: 0 <= i < |s| ==> !IsSpace(s[i])
    ensures StripSpaces(s) == s
  {
    FilterAllPass(NotSpace, s);
  }

  /** Removing white space from the three groups of a number written "xxxx xxx xxxx". */
  lemma StripGroups(a: string, b: string, c: string)
    requires forall i :: 0 <= i < |a| ==> !IsSpace(a[i])
    requires forall i :: 0 <= i < |b| ==> !IsSpace(b[i])
    requires forall i :: 0 <= i < |c| ==> !IsSpace(c[i])
    ensures StripSpaces(a + " " + b + " " + c) == a + b + c
  {
    var blank := StripSpaces(" ");
    assert blank == [];
    StripSpacesNone(a);
    StripSpacesNone(b);
    StripSpacesNone(c);
    var x1 := a + " ";
    FilterAppend(NotSpace, a, " ");
    assert StripSpaces(x1) == a + blank == a;
    var x2 := x1 + b;
    FilterAppend(NotSpace, x1, b);
    assert StripSpaces(x2) == a + b;
    var x3 := x2 + " ";
    FilterAppend(NotSpace, x2, " ");
    assert StripSpaces(x3) == a + b + blank == a + b;
    FilterAppend(NotSpace, x3, c);
  }

  /** Digits are not white space. */
  lemma DigitsNoSpace(s: string)
    requires forall i :: 0 <= i < |s| ==> IsDigit(s[i])
    ensures forall i :: 0 <= i < |s| ==> !IsSpace(s[i])
  {
  }

  /** A core has no white space. */
  lemma CoreNoSpace(core: string)
    requires PhoneCore(core)
    ensures forall i :: 0 <= i < |core| ==> !IsSpace(core[i])
  {
    forall i | 0 <= i < |core| ensures !IsSpace(core[i]) {
      assert i < 2 || IsDigit(core[i]);
    }
  }

  /** A prefix without white space in front of a core is kept by the stripping. */
  lemma PrefixedUnstripped(prefix: string, core: string)
    requires PhoneCore(core)
    requires forall i :: 0 <= i < |prefix| ==> !IsSpace(prefix[i])
    ensures StripSpaces(prefix + core) == prefix + core
  {
    CoreNoSpace(core);
    var t := prefix + core;
    forall i | 0 <= i < |t| ensures !IsSpace(t[i]) {
      if i >= |prefix| { assert t[i] == core[i - |prefix|]; } else { assert t[i] == prefix[i]; }
    }
    StripSpacesNone(t);
  }

  /** A valid ten-character core is accepted bare, after "0" and after "+234". */
  lemma PrefixesAccepted(core: string)
    requires PhoneCore(core)
    ensures ValidatePhone(core)
    ensures ValidatePhone("0" + core)
    ensures ValidatePhone("+234" + core)
  {
    CoreNoSpace(core);
    StripSpacesNone(core);
    var local := "0" + core;
    PrefixedUnstripped("0", core);
    assert local[1..] == core;
    var intl := "+234" + core;
    PrefixedUnstripped("+234", core);
    assert intl[..4] == "+234" && intl[4..] == core;
  }

  /** Only the digits matter: a number is accepted exactly when its stripped form is. */
  lemma SpacesIgnored(phone: string)
    ensures ValidatePhone(phone) <==> ValidatePhone(StripSpaces(phone))
  {
    StripSpacesClean(phone);
  }

  /** A local number written in groups with spaces is accepted. */
  lemma PhoneLocalExample(s: string)
    requires s == "0803 123 4567"
    ensures ValidatePhone(s)
  {
    var a, b, c := "0803", "123", "4567";
    DigitsNoSpace(a);
    DigitsNoSpace(b);
    DigitsNoSpace(c);
    StripGroups(a, b, c);
    assert a + " " + b + " " + c == s;
    assert StripSpaces(s) == "0" + "8031234567";
    assert PhoneCore("8031234567");
    PrefixesAccepted("8031234567");
    SpacesIgnored(s);
  }

  /** The digit after the leading 0 must be 7, 8 or 9. */
  lemma PhoneBadPrefixExample(s: string)
    requires s == "0603 123 4567"
    ensures !ValidatePhone(s)
  {
    var a, b, c := "0603", "123", "4567";
    DigitsNoSpace(a);
    DigitsNoSpace(b);
    DigitsNoSpace(c);
    StripGroups(a, b, c);
    assert a + " " + b + " " + c == s;
    var t := StripSpaces(s);
    assert t == a + b + c;
    assert |t| == 11 && t[1] == '6';
  }

  // ---------------------------------------------------------------------------
  // Required, lengths and numbers

  /** `validateRequired`: a string must have something left after trimming; any other value
      must be neither `undefined` nor `null` (so the number 0 is accepted). */
  predicate ValidateRequired(v: FormValue) {
    match v
    case Str(s) => Utf16Length(Trim(s)) > 0
    case Num(_) => true
    case Undefined => false
    case Null => false
  }

  /** A string is accepted exactly when it has a character that is not white space; of the
      other values only `undefined` and `null` are refused, so the number 0 passes. */
  lemma RequiredIff(s: string, n: int)
    ensures ValidateRequired(Str(s)) <==> exists i :: 0 <= i < |s| && !IsSpace(s[i])
    ensures ValidateRequired(Num(n)) && !ValidateRequired(Undefined) && !ValidateRequired(Null)
  {
    TrimEmptyIff(s);
  }

  /** `validateMinLength`: the trimmed value's `length`, counted in UTF-16 code units. */
  predicate ValidateMinLength(s: string, minLength: int) {
    Utf16Length(Trim(s)) >= minLength
  }

  /** `validateMaxLength`: the trimmed value's `length`, counted in UTF-16 code units. */
  predicate ValidateMaxLength(s: string, maxLength: int) {
    Utf16Length(Trim(s)) <= maxLength
  }

  /** Over text without characters beyond U+FFFF the length rules count characters. */
  lemma LengthRulesBmp(s: string, n: int)
    requires forall i :: 0 <= i < |s| ==> s[i] as int <= 0xFFFF
    ensures ValidateMinLength(s, n) <==> |Trim(s)| >= n
    ensures ValidateMaxLength(s, n) <==> |Trim(s)| <= n
  {
    TrimIsSlice(s);
    var t := Trim(s);
    forall i | 0 <= i < |t| ensures t[i] as int <= 0xFFFF {
      var a, b :| 0 <= a <= b <= |s| && t == s[a..b];
      assert t[i] == s[a + i];
    }
    Utf16LengthBmp(t);
  }

  /** A single emoji is one character but two code units, so it meets a minimum length of 2. */
  lemma EmojiMeetsMinimumOfTwo(s: string)
    requires s == "\U{1F600}"
    ensures |s| == 1 && ValidateMinLength(s, 2)
  {
    TrimUnpadded(s);
    AstralLength(s);
  }

  /** The result of JavaScript's number parsing, over integers: `NaN` or a finite value. */
  datatype NumberValue = NaN | Finite(value: int)

  function LeadingDigits(s: string): (r: string)
    ensures |r| <= |s| && r == s[..|r|]
    ensures forall i :: 0 <= i < |r| ==> IsDigit(r[i])
    ensures |r| < |s| ==> !IsDigit(s[|r|])
  {
    if |s| > 0 && IsDigit(s[0]) then [s[0]] + LeadingDigits(s[1..]) else []
  }

  /** `parseFloat` restricted to integers: leading white space, an optional sign and the
      longest run of digits after it; `NaN` when there is no digit. */
  function ParseFloat(s: string): (r: NumberValue)
  {
    var t := TrimStart(s);
    var negative := |t| > 0 && t[0] == '-';
    var body := if |t| > 0 && (t[0] == '-' || t[0] == '+') then t[1..] else t;
    var ds := LeadingDigits(body);
    if ds == "" then NaN
    else
      var v: int := DigitsValue(ds);
      Finite(if negative then -v else v)
  }

  lemma LeadingDigitsOfDigits(s: string)
    requires forall i :: 0 <= i < |s| ==> IsDigit(s[i])
    ensures LeadingDigits(s) == s
  {
  }

  /** Parsing reads back what the decimal rendering writes. */
  lemma ParseDecimal(n: nat)
    ensures ParseFloat(Decimal(n)) == Finite(n)
  {
    var d := Decimal(n);
    assert !IsSpace(d[0]);
    LeadingDigitsOfDigits(d);
    DecimalRoundTrip(n);
  }

  /** A string that parses to a number is never blank, so it passes `validateRequired`. */
  lemma ParsedIsRequired(s: string)
    requires ParseFloat(s).Finite?
    ensures ValidateRequired(Str(s))
  {
    var t := TrimStart(s);
    var k := |s| - |t|;
    var off := if |t| > 0 && (t[0] == '-' || t[0] == '+') then 1 else 0;
    var body := t[off..];
    var ds := LeadingDigits(body);
    assert IsDigit(ds[0]) && ds[0] == s[k + off];
    RequiredIff(s, 0);
  }

  function NumberOf(v: FormValue): NumberValue {
    match v
    case Str(s) => ParseFloat(s)
    case Num(n) => Finite(n)
    case _ => NaN
  }

  /** `validateNumber`: not `NaN` (every integer is finite). */
  predicate ValidateNumber(v: FormValue) {
    NumberOf(v).Finite?
  }

  predicate ValidateMinValue(v: FormValue, minValue: int) {
    NumberOf(v).Finite? && NumberOf(v).value >= minValue
  }

  predicate ValidateMaxValue(v: FormValue, maxValue: int) {
    NumberOf(v).Finite? && NumberOf(v).value <= maxValue
  }

  // ---------------------------------------------------------------------------
  // A form validator read per field: each field's else-if chain (a `...Failure` function)
  // yields its first failing message, and the form's errors are the fields' reports in
  // field order. Each form method pushes through one small method per field.

  /** What one field contributes to the error list: nothing, or its first failing message. */
  function Report(field: string, failure: Option<string>): (r: seq<FieldError>)
  {
    if failure.None? then [] else [FieldError(field, failure.value)]
  }

  /** The number of errors reported for `field`. */
  function FieldCount(errs: seq<FieldError>, field: string): (n: nat)
  {
    if errs == [] then 0
    else (if errs[0].field == field then 1 else 0) + FieldCount(errs[1..], field)
  }

  lemma {:induction false} FieldCountAppend(a: seq<FieldError>, b: seq<FieldError>, field: string)
    ensures FieldCount(a + b, field) == FieldCount(a, field) + FieldCount(b, field)
  {
    if a == [] {
      assert a + b == b;
    } else {
      assert (a + b)[1..] == a[1..] + b;
      FieldCountAppend(a[1..], b, field);
    }
  }

  /** A field reports at most once, and only under its own name. */
  lemma ReportCount(name: string, failure: Option<string>, field: string)
    ensures FieldCount(Report(name, failure), field) ==
      if name == field && failure.Some? then 1 else 0
  {
  }

  // Shared by several forms.

  function EmailFailure(email: string): Option<string> {
    if !ValidateRequired(Str(email)) then Some("Email address is required")
    else if !ValidateEmail(email) then Some("Please enter a valid email address")
    else None
  }

  // ---------------------------------------------------------------------------
  // The booking (inspection request) form

  datatype BookingForm = BookingForm(
    inspectionDate: string, inspectionTime: string, fullName: string,
    email: string, phone: string, message: Option<string>)

  /** `data.message` is truthy: present and not the empty string. */
  predicate HasMessage(m: Option<string>) {
    m.Some? && m.value != ""
  }

  /** `isDate` and `isFuture` stand for `validateDate` and `validateFutureDate`, which depend
      on the JavaScript date parser and the clock. */
  function InspectionDateFailure(date: string, isDate: string -> bool, isFuture: string -> bool): Option<string> {
    if !ValidateRequired(Str(date)) then Some("Inspection date is required")
    else if !isDate(date) then Some("Please enter a valid date")
    else if !isFuture(date) then Some("Inspection date must be in the future")
    else None
  }

  function InspectionTimeFailure(time: string): Option<string> {
    if !ValidateRequired(Str(time)) then Some("Inspection time is required")
    else None
  }

  function FullNameFailure(name: string): Option<string> {
    if !ValidateRequired(Str(name)) then Some("Full name is required")
    else if !ValidateMinLength(name, 2) then Some("Full name must be at least 2 characters")
    else if !ValidateMaxLength(name, 100) then Some("Full name must be less than 100 characters")
    else None
  }

  function PhoneFailure(phone: string): Option<string> {
    if !ValidateRequired(Str(phone)) then Some("Phone number is required")
    else if !ValidatePhone(phone) then Some("Please enter a valid Nigerian phone number")
    else None
  }

  function BookingMessageFailure(message: Option<string>): Option<string> {
    if HasMessage(message) && !ValidateMaxLength(message.value, 500)
    then Some("Message must be less than 500 characters")
    else None
  }

  function BookingErrors(d: BookingForm, isDate: string -> bool, isFuture: string -> bool): seq<FieldError> {
    Report("inspectionDate", InspectionDateFailure(d.inspectionDate, isDate, isFuture))
    + Report("inspectionTime", InspectionTimeFailure(d.inspectionTime))
    + Report("fullName", FullNameFailure(d.fullName))
    + Report("email", EmailFailure(d.email))
    + Report("phone", PhoneFailure(d.phone))
    + Report("message", BookingMessageFailure(d.message))
  }

  /** `validateBookingForm`, pushing onto `errors` through the else-if chains. */
  method ValidateBookingForm(d: BookingForm, isDate: string -> bool, isFuture: string -> bool) returns (r: ValidationResult)
    ensures r.errors == BookingErrors(d, isDate, isFuture)
    ensures r.isValid <==> r.errors == []
  {
    var errors: seq<FieldError> := [];
    errors := PushInspectionDate(errors, d.inspectionDate, isDate, isFuture);
    assert errors == Report("inspectionDate", InspectionDateFailure(d.inspectionDate, isDate, isFuture));
    errors := PushInspectionTime(errors, d.inspectionTime);
    errors := PushFullName(errors, d.fullName);
    errors := PushEmail(errors, d.email);
    errors := PushPhone(errors, d.phone);
    errors := PushBookingMessage(errors, d.message);
    r := ValidationResult(|errors| == 0, errors);
  }

  method PushInspectionDate(errors: seq<FieldError>, date: string, isDate: string -> bool, isFuture: string -> bool) returns (r: seq<FieldError>)
    ensures r == errors + Report("inspectionDate", InspectionDateFailure(date, isDate, isFuture))
  {
    r := errors;
    if !ValidateRequired(Str(date)) {
      r := r + [FieldError("inspectionDate", "Inspection date is required")];
    } else if !isDate(date) {
      r := r + [FieldError("inspectionDate", "Please enter a valid date")];
    } else if !isFuture(date) {
      r := r + [FieldError("inspectionDate", "Inspection date must be in the future")];
    }
  }

  method PushInspectionTime(errors: seq<FieldError>, time: string) returns (r: seq<FieldError>)
    ensures r == errors + Report("inspectionTime", InspectionTimeFailure(time))
  {
    r := errors;
    if !ValidateRequired(Str(time)) {
      r := r + [FieldError("inspectionTime", "Inspection time is required")];
    }
  }

  method PushFullName(errors: seq<FieldError>, name: string) returns (r: seq<FieldError>)
    ensures r == errors + Report("fullName", FullNameFailure(name))
  {
    r := errors;
    if !ValidateRequired(Str(name)) {
      r := r + [FieldError("fullName", "Full name is required")];
    } else if !ValidateMinLength(name, 2) {
      r := r + [FieldError("fullName", "Full name must be at least 2 characters")];
    } else if !ValidateMaxLength(name, 100) {
      r := r + [FieldError("fullName", "Full name must be less than 100 characters")];
    }
  }

  method PushPhone(errors: seq<FieldError>, phone: string) returns (r: seq<FieldError>)
    ensures r == errors + Report("phone", PhoneFailure(phone))
  {
    r := errors;
    if !ValidateRequired(Str(phone)) {
      r := r + [FieldError("phone", "Phone number is required")];
    } else if !ValidatePhone(phone) {
      r := r + [FieldError("phone", "Please enter a valid Nigerian phone number")];
    }
  }

  method PushBookingMessage(errors: seq<FieldError>, message: Option<string>) returns (r: seq<FieldError>)
    ensures r == errors + Report("message", BookingMessageFailure(message))
  {
    r := errors;
    if HasMessage(message) && !ValidateMaxLength(message.value, 500) {
      r := r + [FieldError("message", "Message must be less than 500 characters")];
    }
  }

  /** Each booking field is reported at most once. */
  lemma BookingOnePerField(d: BookingForm, isDate: string -> bool, isFuture: string -> bool, field: string)
    ensures FieldCount(BookingErrors(d, isDate, isFuture), field) <= 1
  {
    BookingCounts(d, isDate, isFuture, field);
  }

  /** The number of errors for a field is the sum of the six reports' counts. */
  lemma BookingCounts(d: BookingForm, isDate: string -> bool, isFuture: string -> bool, field: string)
    ensures FieldCount(BookingErrors(d, isDate, isFuture), field) ==
      (if field == "inspectionDate" && InspectionDateFailure(d.inspectionDate, isDate, isFuture).Some? then 1 else 0)
      + (if field == "inspectionTime" && InspectionTimeFailure(d.inspectionTime).Some? then 1 else 0)
      + (if field == "fullName" && FullNameFailure(d.fullName).Some? then 1 else 0)
      + (if field == "email" && EmailFailure(d.email).Some? then 1 else 0)
      + (if field == "phone" && PhoneFailure(d.phone).Some? then 1 else 0)
      + (if field == "message" && BookingMessageFailure(d.message).Some? then 1 else 0)
  {
    var r0 := Report("inspectionDate", InspectionDateFailure(d.inspectionDate, isDate, isFuture));
    ReportCount("inspectionDate", InspectionDateFailure(d.inspectionDate, isDate, isFuture), field);
    var r1 := Report("inspectionTime", InspectionTimeFailure(d.inspectionTime));
    ReportCount("inspectionTime", InspectionTimeFailure(d.inspectionTime), field);
    var r2 := Report("fullName", FullNameFailure(d.fullName));
    ReportCount("fullName", FullNameFailure(d.fullName), field);
    var r3 := Report("email", EmailFailure(d.email));
    ReportCount("email", EmailFailure(d.email), field);
    var r4 := Report("phone", PhoneFailure(d.phone));
    ReportCount("phone", PhoneFailure(d.phone), field);
    var r5 := Report("message", BookingMessageFailure(d.message));
    ReportCount("message", BookingMessageFailure(d.message), field);
    FieldCountAppend(r0, r1, field);
    FieldCountAppend(r0 + r1, r2, field);
    FieldCountAppend(r0 + r1 + r2, r3, field);
    FieldCountAppend(r0 + r1 + r2 + r3, r4, field);
    FieldCountAppend(r0 + r1 + r2 + r3 + r4, r5, field);
  }

  /** The full name is accepted exactly for trimmed lengths from 2 to 100 code units. */
  lemma BookingFullNameRange(d: BookingForm, isDate: string -> bool, isFuture: string -> bool)
    ensures FieldCount(BookingErrors(d, isDate, isFuture), "fullName") == 0 <==> 2 <= Utf16Length(Trim(d.fullName)) <= 100
  {
    BookingCounts(d, isDate, isFuture, "fullName");
  }

  /** The message is looked at only when it is present and not empty, against 500 code units. */
  lemma BookingMessageRule(d: BookingForm, isDate: string -> bool, isFuture: string -> bool)
    ensures FieldCount(BookingErrors(d, isDate, isFuture), "message") == 0 <==>
      !HasMessage(d.message) || Utf16Length(Trim(d.message.value)) <= 500
  {
    BookingCounts(d, isDate, isFuture, "message");
  }

  // ---------------------------------------------------------------------------
  // The caretaker listing form

  datatype CaretakerForm = CaretakerForm(
    name: string, location: string, price: string, roomType: string,
    facilities: seq<string>, description: string, photos: seq<FileUpload.FileInfo>)

  function ApartmentNameFailure(name: string): Option<string> {
    if !ValidateRequired(Str(name)) then Some("Apartment name is required")
    else if !ValidateMinLength(name, 2) then Some("Apartment name must be at least 2 characters")
    else if !ValidateMaxLength(name, 100) then Some("Apartment name must be less than 100 characters")
    else None
  }

  function LocationFailure(location: string): Option<string> {
    if !ValidateRequired(Str(location)) then Some("Location is required")
    else if !ValidateMinLength(location, 5) then Some("Location must be at least 5 characters")
    else None
  }

  function PriceFailure(price: string): Option<string> {
    if !ValidateRequired(Str(price)) then Some("Price is required")
    else if !ValidateNumber(Str(price)) then Some("Price must be a valid number")
    else if !ValidateMinValue(Str(price), 10000) then Some("Price must be at least \U{20A6}10,000")
    else if !ValidateMaxValue(Str(price), 10000000) then Some("Price must be less than \U{20A6}10,000,000")
    else None
  }

  function RoomTypeFailure(roomType: string): Option<string> {
    if !ValidateRequired(Str(roomType)) then Some("Room type is required")
    else None
  }

  function FacilitiesFailure(facilities: seq<string>): Option<string> {
    if |facilities| == 0 then Some("Please select at least one facility")
    else None
  }

  function DescriptionFailure(description: string): Option<string> {
    if !ValidateRequired(Str(description)) then Some("Description is required")
    else if !ValidateMinLength(description, 20) then Some("Description must be at least 20 characters")
    else if !ValidateMaxLength(description, 1000) then Some("Description must be less than 1000 characters")
    else None
  }

  function PhotosFailure(photoCount: nat): Option<string> {
    if photoCount == 0 then Some("Please upload at least one photo")
    else if photoCount > 10 then Some("Maximum 10 photos allowed")
    else None
  }

  function CaretakerErrors(d: CaretakerForm): seq<FieldError> {
    Report("name", ApartmentNameFailure(d.name))
    + Report("location", LocationFailure(d.location))
    + Report("price", PriceFailure(d.price))
    + Report("roomType", RoomTypeFailure(d.roomType))
    + Report("facilities", FacilitiesFailure(d.facilities))
    + Report("description", DescriptionFailure(d.description))
    + Report("photos", PhotosFailure(|d.photos|))
  }

  /** `validateCaretakerForm`. */
  method ValidateCaretakerForm(d: CaretakerForm) returns (r: ValidationResult)
    ensures r.errors == CaretakerErrors(d)
    ensures r.isValid <==> r.errors == []
  {
    var errors: seq<FieldError> := [];
    errors := PushApartmentName(errors, d.name);
    assert errors == Report("name", ApartmentNameFailure(d.name));
    errors := PushLocation(errors, d.location);
    errors := PushPrice(errors, d.price);
    errors := PushRoomType(errors, d.roomType);
    errors := PushFacilities(errors, d.facilities);
    errors := PushDescription(errors, d.description);
    errors := PushPhotos(errors, |d.photos|);
    r := ValidationResult(|errors| == 0, errors);
  }

  method PushApartmentName(errors: seq<FieldError>, name: string) returns (r: seq<FieldError>)
    ensures r == errors + Report("name", ApartmentNameFailure(name))
  {
    r := errors;
    if !ValidateRequired(Str(name)) {
      r := r + [FieldError("name", "Apartment name is required")];
    } else if !ValidateMinLength(name, 2) {
      r := r + [FieldError("name", "Apartment name must be at least 2 characters")];
    } else if !ValidateMaxLength(name, 100) {
      r := r + [FieldError("name", "Apartment name must be less than 100 characters")];
    }
  }

  method PushLocation(errors: seq<FieldError>, location: string) returns (r: seq<FieldError>)
    ensures r == errors + Report("location", LocationFailure(location))
  {
    r := errors;
    if !ValidateRequired(Str(location)) {
      r := r + [FieldError("location", "Location is required")];
    } else if !ValidateMinLength(location, 5) {
      r := r + [FieldError("location", "Location must be at least 5 characters")];
    }
  }

  method PushPrice(errors: seq<FieldError>, price: string) returns (r: seq<FieldError>)
    ensures r == errors + Report("price", PriceFailure(price))
  {
    r := errors;
    if !ValidateRequired(Str(price)) {
      r := r + [FieldError("price", "Price is required")];
    } else if !ValidateNumber(Str(price)) {
      r := r + [FieldError("price", "Price must be a valid number")];
    } else if !ValidateMinValue(Str(price), 10000) {
      r := r + [FieldError("price", "Price must be at least \U{20A6}10,000")];
    } else if !ValidateMaxValue(Str(price), 10000000) {
      r := r + [FieldError("price", "Price must be less than \U{20A6}10,000,000")];
    }
  }

  method PushRoomType(errors: seq<FieldError>, roomType: string) returns (r: seq<FieldError>)
    ensures r == errors + Report("roomType", RoomTypeFailure(roomType))
  {
    r := errors;
    if !ValidateRequired(Str(roomType)) {
      r := r + [FieldError("roomType", "Room type is required")];
    }
  }

  method PushFacilities(errors: seq<FieldError>, facilities: seq<string>) returns (r: seq<FieldError>)
    ensures r == errors + Report("facilities", FacilitiesFailure(facilities))
  {
    r := errors;
    if |facilities| == 0 {
      r := r + [FieldError("facilities", "Please select at least one facility")];
    }
  }

  method PushDescription(errors: seq<FieldError>, description: string) returns (r: seq<FieldError>)
    ensures r == errors + Report("description", DescriptionFailure(description))
  {
    r := errors;
    if !ValidateRequired(Str(description)) {
      r := r + [FieldError("description", "Description is required")];
    } else if !ValidateMinLength(description, 20) {
      r := r + [FieldError("description", "Description must be at least 20 characters")];
    } else if !ValidateMaxLength(description, 1000) {
      r := r + [FieldError("description", "Description must be less than 1000 characters")];
    }
  }

  method PushPhotos(errors: seq<FieldError>, photoCount: nat) returns (r: seq<FieldError>)
    ensures r == errors + Report("photos", PhotosFailure(photoCount))
  {
    r := errors;
    if photoCount == 0 {
      r := r + [FieldError("photos", "Please upload at least one photo")];
    } else if photoCount > 10 {
      r := r + [FieldError("photos", "Maximum 10 photos allowed")];
    }
  }

  lemma CaretakerCounts(d: CaretakerForm, field: string)
    ensures FieldCount(CaretakerErrors(d), field) ==
      (if field == "name" && ApartmentNameFailure(d.name).Some? then 1 else 0)
      + (if field == "location" && LocationFailure(d.location).Some? then 1 else 0)
      + (if field == "price" && PriceFailure(d.price).Some? then 1 else 0)
      + (if field == "roomType" && RoomTypeFailure(d.roomType).Some? then 1 else 0)
      + (if field == "facilities" && FacilitiesFailure(d.facilities).Some? then 1 else 0)
      + (if field == "description" && DescriptionFailure(d.description).Some? then 1 else 0)
      + (if field == "photos" && PhotosFailure(|d.photos|).Some? then 1 else 0)
  {
    var r0 := Report("name", ApartmentNameFailure(d.name));
    ReportCount("name", ApartmentNameFailure(d.name), field);
    var r1 := Report("location", LocationFailure(d.location));
    ReportCount("location", LocationFailure(d.location), field);
    var r2 := Report("price", PriceFailure(d.price));
    ReportCount("price", PriceFailure(d.price), field);
    var r3 := Report("roomType", RoomTypeFailure(d.roomType));
    ReportCount("roomType", RoomTypeFailure(d.roomType), field);
    var r4 := Report("facilities", FacilitiesFailure(d.facilities));
    ReportCount("facilities", FacilitiesFailure(d.facilities), field);
    var r5 := Report("description", DescriptionFailure(d.description));
    ReportCount("description", DescriptionFailure(d.description), field);
    var r6 := Report("photos", PhotosFailure(|d.photos|));
    ReportCount("photos", PhotosFailure(|d.photos|), field);
    FieldCountAppend(r0, r1, field);
    FieldCountAppend(r0 + r1, r2, field);
    FieldCountAppend(r0 + r1 + r2, r3, field);
    FieldCountAppend(r0 + r1 + r2 + r3, r4, field);
    FieldCountAppend(r0 + r1 + r2 + r3 + r4, r5, field);
    FieldCountAppend(r0 + r1 + r2 + r3 + r4 + r5, r6, field);
  }

  /** Each caretaker field is reported at most once. */
  lemma CaretakerOnePerField(d: CaretakerForm, field: string)
    ensures FieldCount(CaretakerErrors(d), field) <= 1
  {
    CaretakerCounts(d, field);
  }

  /** The price is accepted exactly when it parses to a value from 10,000 to 10,000,000. */
  lemma CaretakerPriceRange(d: CaretakerForm)
    ensures FieldCount(CaretakerErrors(d), "price") == 0 <==>
      ParseFloat(d.price).Finite? && 10000 <= ParseFloat(d.price).value <= 10000000
  {
    CaretakerCounts(d, "price");
    PriceAccepted(d.price);
  }

  lemma PriceAccepted(price: string)
    ensures PriceFailure(price) == None <==>
      ParseFloat(price).Finite? && 10000 <= ParseFloat(price).value <= 10000000
  {
    if ParseFloat(price).Finite? {
      ParsedIsRequired(price);
    }
  }

  /** After trimming, the apartment name must have from 2 to 100, the location at least 5 and
      the description from 20 to 1000 UTF-16 code units. */
  lemma CaretakerTextRanges(d: CaretakerForm)
    ensures FieldCount(CaretakerErrors(d), "name") == 0 <==> 2 <= Utf16Length(Trim(d.name)) <= 100
    ensures FieldCount(CaretakerErrors(d), "location") == 0 <==> 5 <= Utf16Length(Trim(d.location))
    ensures FieldCount(CaretakerErrors(d), "description") == 0 <==>
      20 <= Utf16Length(Trim(d.description)) <= 1000
  {
    CaretakerNameRange(d);
    CaretakerLocationRule(d);
    CaretakerDescriptionRange(d);
  }

  /** The name's entry in the caretaker errors, read as a range. */
  lemma CaretakerNameRange(d: CaretakerForm)
    ensures FieldCount(CaretakerErrors(d), "name") == 0 <==> 2 <= Utf16Length(Trim(d.name)) <= 100
  {
    CaretakerCounts(d, "name");
    assert FieldCount(CaretakerErrors(d), "name") == if ApartmentNameFailure(d.name).Some? then 1 else 0;
    ApartmentNameFailureIff(d.name);
  }

  /** The apartment name's chain fails exactly outside 2..100 code units. */
  lemma ApartmentNameFailureIff(name: string)
    ensures ApartmentNameFailure(name).None? <==> 2 <= Utf16Length(Trim(name)) <= 100
  {
  }

  /** The location's entry in the caretaker errors, read as a bound. */
  lemma CaretakerLocationRule(d: CaretakerForm)
    ensures FieldCount(CaretakerErrors(d), "location") == 0 <==> 5 <= Utf16Length(Trim(d.location))
  {
    CaretakerCounts(d, "location");
    assert FieldCount(CaretakerErrors(d), "location") == if LocationFailure(d.location).Some? then 1 else 0;
    LocationFailureIff(d.location);
  }

  /** The location's chain fails exactly below 5 code units. */
  lemma LocationFailureIff(location: string)
    ensures LocationFailure(location).None? <==> 5 <= Utf16Length(Trim(location))
  {
  }

  /** The description's entry in the caretaker errors, read as a range. */
  lemma CaretakerDescriptionRange(d: CaretakerForm)
    ensures FieldCount(CaretakerErrors(d), "description") == 0 <==>
      20 <= Utf16Length(Trim(d.description)) <= 1000
  {
    CaretakerCounts(d, "description");
    assert FieldCount(CaretakerErrors(d), "description") == if DescriptionFailure(d.description).Some? then 1 else 0;
    DescriptionFailureIff(d.description);
  }

  /** The description's chain fails exactly outside 20..1000 code units. */
  lemma DescriptionFailureIff(description: string)
    ensures DescriptionFailure(description).None? <==> 20 <= Utf16Length(Trim(description)) <= 1000
  {
  }

  /** At least one facility is required, and from 1 to 10 photos are allowed. */
  lemma CaretakerListRules(d: CaretakerForm)
    ensures FieldCount(CaretakerErrors(d), "facilities") == 0 <==> |d.facilities| > 0
    ensures FieldCount(CaretakerErrors(d), "photos") == 0 <==> 1 <= |d.photos| <= 10
  {
    CaretakerCounts(d, "facilities");
    CaretakerCounts(d, "photos");
  }

  // ---------------------------------------------------------------------------
  // The contact form

  datatype ContactForm = ContactForm(name: string, email: string, message: string)

  function ContactNameFailure(name: string): Option<string> {
    if !ValidateRequired(Str(name)) then Some("Name is required")
    else if !ValidateMinLength(name, 2) then Some("Name must be at least 2 characters")
    else None
  }

  function ContactMessageFailure(message: string): Option<string> {
    if !ValidateRequired(Str(message)) then Some("Message is required")
    else if !ValidateMinLength(message, 10) then Some("Message must be at least 10 characters")
    else if !ValidateMaxLength(message, 1000) then Some("Message must be less than 1000 characters")
    else None
  }

  function ContactErrors(d: ContactForm): seq<FieldError> {
    Report("name", ContactNameFailure(d.name))
    + Report("email", EmailFailure(d.email))
    + Report("message", ContactMessageFailure(d.message))
  }

  /** `validateContactForm`. */
  method ValidateContactForm(d: ContactForm) returns (r: ValidationResult)
    ensures r.errors == ContactErrors(d)
    ensures r.isValid <==> r.errors == []
  {
    var errors: seq<FieldError> := [];
    errors := PushContactName(errors, d.name);
    assert errors == Report("name", ContactNameFailure(d.name));
    errors := PushEmail(errors, d.email);
    errors := PushContactMessage(errors, d.message);
    r := ValidationResult(|errors| == 0, errors);
  }

  method PushContactName(errors: seq<FieldError>, name: string) returns (r: seq<FieldError>)
    ensures r == errors + Report("name", ContactNameFailure(name))
  {
    r := errors;
    if !ValidateRequired(Str(name)) {
      r := r + [FieldError("name", "Name is required")];
    } else if !ValidateMinLength(name, 2) {
      r := r + [FieldError("name", "Name must be at least 2 characters")];
    }
  }

  method PushEmail(errors: seq<FieldError>, email: string) returns (r: seq<FieldError>)
    ensures r == errors + Report("email", EmailFailure(email))
  {
    r := errors;
    if !ValidateRequired(Str(email)) {
      r := r + [FieldError("email", "Email address is required")];
    } else if !ValidateEmail(email) {
      r := r + [FieldError("email", "Please enter a valid email address")];
    }
  }

  method PushContactMessage(errors: seq<FieldError>, message: string) returns (r: seq<FieldError>)
    ensures r == errors + Report("message", ContactMessageFailure(message))
  {
    r := errors;
    if !ValidateRequired(Str(message)) {
      r := r + [FieldError("message", "Message is required")];
    } else if !ValidateMinLength(message, 10) {
      r := r + [FieldError("message", "Message must be at least 10 characters")];
    } else if !ValidateMaxLength(message, 1000) {
      r := r + [FieldError("message", "Message must be less than 1000 characters")];
    }
  }

  /** A contact form passes exactly when, after trimming, the name has at least 2 and the
      message from 10 to 1000 UTF-16 code units, and the e-mail address is well formed. */
  lemma ContactValidIff(d: ContactForm)
    ensures ContactErrors(d) == [] <==>
      && 2 <= Utf16Length(Trim(d.name))
      && ValidateEmail(d.email)
      && 10 <= Utf16Length(Trim(d.message)) <= 1000
  {
    var n, e, m := ContactNameFailure(d.name), EmailFailure(d.email), ContactMessageFailure(d.message);
    ReportsEmpty(Report("name", n), Report("email", e), Report("message", m));
    EmailAccepted(d.email);
  }

  lemma ReportsEmpty(a: seq<FieldError>, b: seq<FieldError>, c: seq<FieldError>)
    ensures a + b + c == [] <==> a == [] && b == [] && c == []
  {
    assert |a + b + c| == |a| + |b| + |c|;
  }

  /** A well-formed address is never blank, so the e-mail chain fails exactly on malformed input. */
  lemma EmailAccepted(email: string)
    ensures EmailFailure(email) == None <==> ValidateEmail(email)
  {
    if ValidateEmail(email) {
      assert !IsSpace(email[0]);
      TrimEmptyIff(email);
    }
  }
}
