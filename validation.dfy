/**
 * The form schemas: each field check runs on the trimmed text where the
 * schema trims, every failing check adds its message, and a value is
 * accepted exactly when no check fails.  A schema's output is the
 * transformed value (trimmed, and lower-cased for e-mail addresses).
 */
module Validation {
  import opened Wrappers
  import opened Text
  import opened Seqs
  import SafetyTypes

  /** The messages of the checks. */
  datatype Message =
    | PasswordTooShort
    | PasswordNoUpper
    | PasswordNoLower
    | PasswordNoNumber
    | PasswordNoSpecial
    | InvalidEmail
    | EmailTooLong
    | NameRequired
    | NameTooLong
    | NameCharacters
    | PhoneFormat
    | ContactPhoneFormat
    | BioTooLong
    | LocationTooLong
    | RelationshipRequired
    | RelationshipTooLong
    | ContentEmpty
    | ContentTooLong
    | TitleRequired
    | TitleTooLong
    | AgeNotWhole
    | AgeTooLow
    | AgeTooHigh
    | DateOfBirthRange
    | PasswordRequired
    | PasswordsDontMatch
    | InvalidUserType

  /** The text each message is shown with. */
  function MessageText(m: Message): string {
    match m
    case PasswordTooShort => "Password must be at least 8 characters"
    case PasswordNoUpper => "Password must contain at least one uppercase letter"
    case PasswordNoLower => "Password must contain at least one lowercase letter"
    case PasswordNoNumber => "Password must contain at least one number"
    case PasswordNoSpecial => "Password must contain at least one special character"
    case InvalidEmail => "Invalid email address"
    case EmailTooLong => "Email must be less than 255 characters"
    case NameRequired => "Name is required"
    case NameTooLong => "Name must be less than 100 characters"
    case NameCharacters => "Name can only contain letters, spaces, hyphens, and apostrophes"
    case PhoneFormat => "Please enter a valid phone number (e.g., +1234567890)"
    case ContactPhoneFormat => "Please enter a valid phone number"
    case BioTooLong => "Bio must be less than 500 characters"
    case LocationTooLong => "Location must be less than 200 characters"
    case RelationshipRequired => "Relationship is required"
    case RelationshipTooLong => "Relationship must be less than 50 characters"
    case ContentEmpty => "Content cannot be empty"
    case ContentTooLong => "Content must be less than 5000 characters"
    case TitleRequired => "Title is required"
    case TitleTooLong => "Title must be less than 200 characters"
    case AgeNotWhole => "Age must be a whole number"
    case AgeTooLow => "Users must be at least 8 years old"
    case AgeTooHigh => "Please enter a valid age"
    case DateOfBirthRange => "User must be between 8 and 120 years old"
    case PasswordRequired => "Password is required"
    case PasswordsDontMatch => "Passwords don't match"
    case InvalidUserType => "Invalid enum value. Expected 'woman' | 'child' | 'guardian'"
  }

  /** A field's transformed value and the messages of the checks it failed, in schema order. */
  datatype Checked<T> = Checked(value: T, errors: seq<Message>) {
    predicate Accepted() { errors == [] }
  }

  /** The message of a check, when the check fails. */
  function Check(ok: bool, message: Message): (r: seq<Message>)
    ensures ok <==> r == []
    ensures !ok ==> r == [message]
  {
    if ok then [] else [message]
  }

  // Password

  predicate HasUpper(s: string) { exists i :: 0 <= i < |s| && IsUpper(s[i]) }
  predicate HasLower(s: string) { exists i :: 0 <= i < |s| && IsLower(s[i]) }
  predicate HasDigit(s: string) { exists i :: 0 <= i < |s| && IsDigit(s[i]) }
  /** `/[^A-Za-z0-9]/`: white space and every other non-alphanumeric character count. */
  predicate HasSpecial(s: string) { exists i :: 0 <= i < |s| && !IsLetter(s[i]) && !IsDigit(s[i]) }

  /** `passwordSchema`: the password is not trimmed. */
  function Password(p: string): (r: Checked<string>)
    ensures r.value == p
    ensures |r.errors| <= 5
  {
    Checked(p,
      Check(|p| >= 8, PasswordTooShort)
      + Check(HasUpper(p), PasswordNoUpper)
      + Check(HasLower(p), PasswordNoLower)
      + Check(HasDigit(p), PasswordNoNumber)
      + Check(HasSpecial(p), PasswordNoSpecial))
  }

  /** A password is accepted exactly when it has eight characters and one of each of the four kinds. */
  lemma PasswordAcceptedIff(p: string)
    ensures Password(p).Accepted() <==>
            |p| >= 8
            && (exists i :: 0 <= i < |p| && 'A' <= p[i] <= 'Z')
            && (exists i :: 0 <= i < |p| && 'a' <= p[i] <= 'z')
            && (exists i :: 0 <= i < |p| && '0' <= p[i] <= '9')
            && (exists i :: 0 <= i < |p| && !('A' <= p[i] <= 'Z') && !('a' <= p[i] <= 'z') && !('0' <= p[i] <= '9'))
  {
  }

  /** A space is a special character. */
  lemma SpaceIsSpecial(p: string)
    requires ' ' in p
    ensures HasSpecial(p)
  {
    var i :| 0 <= i < |p| && p[i] == ' ';
    assert !IsLetter(p[i]) && !IsDigit(p[i]);
  }

  // E-mail

  /**
   * `emailSchema`: trimmed, checked by the e-mail format `isEmail` (a
   * parameter: the format itself belongs to the schema library), at most
   * 255 characters, then lower-cased.
   */
  function Email(s: string, isEmail: string -> bool): (r: Checked<string>)
    ensures r.Accepted() <==> isEmail(Trim(s)) && |Trim(s)| <= 255
    ensures r.value == Lower(Trim(s))
  {
    var t := Trim(s);
    Checked(Lower(t),
      Check(isEmail(t), InvalidEmail)
      + Check(|t| <= 255, EmailTooLong))
  }

  /** An accepted address is trimmed, at most 255 characters and has no upper-case letter. */
  lemma EmailIsNormalised(s: string, isEmail: string -> bool)
    requires Email(s, isEmail).Accepted()
    ensures var v := Email(s, isEmail).value;
            && |v| <= 255
            && (v != [] ==> !IsSpace(v[0]) && !IsSpace(v[|v| - 1]))
            && forall k :: 0 <= k < |v| ==> !IsUpper(v[k])
  {
    var t := Trim(s);
    var v := Lower(t);
    if v != [] {
      assert v[0] == LowerChar(t[0]);
      assert v[|v| - 1] == LowerChar(t[|t| - 1]);
    }
  }

  // Names

  /** `/^[a-zA-Z\s'-]+$/` character by character. */
  predicate NameChar(c: char) { IsLetter(c) || IsSpace(c) || c == '\'' || c == '-' }

  predicate NameChars(t: string) { t != [] && forall k :: 0 <= k < |t| ==> NameChar(t[k]) }

  /** `nameSchema`. */
  function Name(s: string): (r: Checked<string>)
    ensures r.value == Trim(s)
  {
    var t := Trim(s);
    Checked(t,
      Check(|t| >= 1, NameRequired)
      + Check(|t| <= 100, NameTooLong)
      + Check(NameChars(t), NameCharacters))
  }

  /** A name is accepted exactly when, trimmed, it has 1 to 100 characters, all letters, spaces, apostrophes or hyphens. */
  lemma NameAcceptedIff(s: string)
    ensures Name(s).Accepted() <==>
            1 <= |Trim(s)| <= 100 && forall k :: 0 <= k < |Trim(s)| ==> NameChar(Trim(s)[k])
  {
  }

  // Phone numbers

  /** `[1-9]` */
  predicate NonZeroDigit(c: char) { '1' <= c <= '9' }

  /** `[1-9]\d{min,max}` for the whole of `t`. */
  predicate LeadThenDigits(t: string, min: nat, max: nat) {
    t != [] && NonZeroDigit(t[0]) && min <= |t| - 1 <= max && AllDigits(t[1..])
  }

  /** `/^\+?[1-9]\d{1,14}$/`: an optional plus, which the following `[1-9]` could never match. */
  predicate PhonePattern(t: string) {
    if t != [] && t[0] == '+' then LeadThenDigits(t[1..], 1, 14) else LeadThenDigits(t, 1, 14)
  }

  /**
   * The pattern in the terms of ITU-T Recommendation E.164, clause 6.1: an
   * optional leading plus, then 2 to 15 decimal digits, the first not zero,
   * and nothing else.
   */
  lemma PhonePatternDigits(t: string)
    ensures PhonePattern(t) <==>
            var d := if t != [] && t[0] == '+' then t[1..] else t;
            2 <= |d| <= 15 && AllDigits(d) && d[0] != '0'
    ensures PhonePattern(t) ==> 2 <= Count(t, IsDigit) <= 15 && |t| - Count(t, IsDigit) <= 1
  {
    if PhonePattern(t) {
      var d := if t != [] && t[0] == '+' then t[1..] else t;
      FilterKeepsAll(d, IsDigit);
      if t[0] == '+' {
        assert t == ['+'] + d;
        FilterAppend(['+'], d, IsDigit);
        assert Filter(['+'], IsDigit) == [];
      }
    }
  }

  /** `phoneSchema`: optional; a present number is trimmed and must match the pattern. */
  function Phone(s: Option<string>): (r: Checked<Option<string>>)
    ensures s.None? ==> r.Accepted() && r.value.None?
    ensures s.Some? ==> r.value == Some(Trim(s.value)) && (r.Accepted() <==> PhonePattern(Trim(s.value)))
  {
    match s
    case None => Checked(None, [])
    case Some(p) =>
      Checked(Some(Trim(p)),
        Check(PhonePattern(Trim(p)), PhoneFormat))
  }

  /** A missing number is fine, but a present empty one is not. */
  lemma EmptyPhoneRejected()
    ensures Phone(None).Accepted()
    ensures !Phone(Some("")).Accepted()
  {
  }

  // Lengths

  /** A trimmed text of `min` to `max` characters, with the two messages of its schema. */
  function Bounded(s: string, min: nat, max: nat, tooShort: Message, tooLong: Message): (r: Checked<string>)
    ensures r.value == Trim(s)
    ensures r.Accepted() <==> min <= |Trim(s)| <= max
  {
    var t := Trim(s);
    Checked(t, (if min > 0 then Check(|t| >= min, tooShort) else []) + Check(|t| <= max, tooLong))
  }

  /** An optional trimmed text of at most `max` characters. */
  function OptionalBounded(s: Option<string>, max: nat, tooLong: Message): (r: Checked<Option<string>>)
    ensures s.None? ==> r.Accepted() && r.value.None?
    ensures s.Some? ==> r.value == Some(Trim(s.value)) && (r.Accepted() <==> |Trim(s.value)| <= max)
  {
    match s
    case None => Checked(None, [])
    case Some(v) =>
      var c := Bounded(v, 0, max, tooLong, tooLong);
      Checked(Some(c.value), c.errors)
  }

  /** `bioSchema`: optional, at most 500 characters after trimming. */
  function Bio(s: Option<string>): (r: Checked<Option<string>>)
    ensures s.None? ==> r.Accepted() && r.value.None?
    ensures s.Some? ==> r.value == Some(Trim(s.value)) && (r.Accepted() <==> |Trim(s.value)| <= 500)
    ensures !r.Accepted() ==> r.errors == [BioTooLong]
  {
    OptionalBounded(s, 500, BioTooLong)
  }

  /** `locationSchema`: optional, at most 200 characters after trimming. */
  function Location(s: Option<string>): (r: Checked<Option<string>>)
    ensures s.None? ==> r.Accepted() && r.value.None?
    ensures s.Some? ==> r.value == Some(Trim(s.value)) && (r.Accepted() <==> |Trim(s.value)| <= 200)
    ensures !r.Accepted() ==> r.errors == [LocationTooLong]
  {
    OptionalBounded(s, 200, LocationTooLong)
  }

  /** The relationship of an emergency contact: 1 to 50 characters after trimming. */
  function Relationship(s: string): (r: Checked<string>)
    ensures r.value == Trim(s)
    ensures r.Accepted() <==> 1 <= |Trim(s)| <= 50
    ensures Trim(s) == [] ==> r.errors == [RelationshipRequired]
    ensures |Trim(s)| > 50 ==> r.errors == [RelationshipTooLong]
  {
    Bounded(s, 1, 50, RelationshipRequired, RelationshipTooLong)
  }

  /** `contentSchema`: 1 to 5000 characters after trimming. */
  function Content(s: string): (r: Checked<string>)
    ensures r.value == Trim(s)
    ensures r.Accepted() <==> 1 <= |Trim(s)| <= 5000
    ensures Trim(s) == [] ==> r.errors == [ContentEmpty]
    ensures |Trim(s)| > 5000 ==> r.errors == [ContentTooLong]
  {
    Bounded(s, 1, 5000, ContentEmpty, ContentTooLong)
  }

  /** `titleSchema`: 1 to 200 characters after trimming. */
  function Title(s: string): (r: Checked<string>)
    ensures r.value == Trim(s)
    ensures r.Accepted() <==> 1 <= |Trim(s)| <= 200
    ensures Trim(s) == [] ==> r.errors == [TitleRequired]
    ensures |Trim(s)| > 200 ==> r.errors == [TitleTooLong]
  {
    Bounded(s, 1, 200, TitleRequired, TitleTooLong)
  }

  /** Accepted content is never blank: trimming leaves at least one character. */
  lemma AcceptedContentIsNotBlank(s: string)
    ensures Content(s).Accepted() ==> !IsBlank(s)
  {
  }

  // Age

  predicate IsWhole(x: real) { x == x.Floor as real }

  /** The integer `n` as a number. */
  function Whole(n: int): real { n as real }

  /** `ageSchema`: a whole number from 8 to 120. */
  function Age(a: real): (r: Checked<real>)
    ensures r.value == a
  {
    Checked(a,
      Check(IsWhole(a), AgeNotWhole)
      + Check(a >= 8.0, AgeTooLow)
      + Check(a <= 120.0, AgeTooHigh))
  }

  lemma AgeAcceptedIff(a: real)
    ensures Age(a).Accepted() <==> exists n: int :: 8 <= n <= 120 && a == Whole(n)
  {
    if Age(a).Accepted() {
      assert a == Whole(a.Floor);
    }
  }

  // Objects

  /** A schema issue: the field it is reported at, and its message. */
  datatype Issue = Issue(path: string, message: Message)

  datatype Parsed<T> = Valid(value: T) | Invalid(issues: seq<Issue>)

  /** The messages of one field, reported at that field. */
  function At(path: string, errors: seq<Message>): (r: seq<Issue>)
    ensures |r| == |errors|
    ensures forall k :: 0 <= k < |r| ==> r[k] == Issue(path, errors[k])
  {
    seq(|errors|, k requires 0 <= k < |errors| => Issue(path, errors[k]))
  }

  datatype SignUpForm = SignUpForm(email: string, password: string, confirmPassword: string,
                                   userType: SafetyTypes.UserType, age: Option<real>)

  /** The field checks of the sign-up form, before the password refinement. */
  function SignUpFieldIssues(email: string, password: string, userType: string,
                             age: Option<real>, isEmail: string -> bool): seq<Issue>
  {
    At("email", Email(email, isEmail).errors)
    + At("password", Password(password).errors)
    + (if SafetyTypes.ParseUserType(userType).None? then [Issue("userType", InvalidUserType)] else [])
    + (if age.Some? then At("age", Age(age.value).errors) else [])
  }

  /**
   * `signUpSchema`.  The password refinement runs unless a field failed its
   * type, which here means an unknown user type; its issue is reported at
   * `confirmPassword`.
   */
  function SignUp(email: string, password: string, confirmPassword: string, userType: string,
                  age: Option<real>, isEmail: string -> bool): (r: Parsed<SignUpForm>)
    ensures r.Valid? <==> SignUpFieldIssues(email, password, userType, age, isEmail) == [] && password == confirmPassword
    ensures r.Valid? ==> r.value.email == Lower(Trim(email)) && r.value.password == password
  {
    var fields := SignUpFieldIssues(email, password, userType, age, isEmail);
    var parsedType := SafetyTypes.ParseUserType(userType);
    if parsedType.None? then Invalid(fields)
    else
      var refined := fields + At("confirmPassword", Check(password == confirmPassword, PasswordsDontMatch));
      if refined == [] then Valid(SignUpForm(Lower(Trim(email)), password, confirmPassword, parsedType.value, age))
      else Invalid(refined)
  }

  /** Different passwords are rejected with PasswordsDontMatch at `confirmPassword`. */
  lemma MismatchReportedAtConfirmPassword(email: string, password: string, confirmPassword: string,
                                          userType: string, age: Option<real>, isEmail: string -> bool)
    requires password != confirmPassword
    requires userType in {"woman", "child", "guardian"}
    ensures var r := SignUp(email, password, confirmPassword, userType, age, isEmail);
            r.Invalid? && Issue("confirmPassword", PasswordsDontMatch) in r.issues
  {
    var fields := SignUpFieldIssues(email, password, userType, age, isEmail);
    var refined := fields + At("confirmPassword", [PasswordsDontMatch]);
    assert refined[|fields|] == Issue("confirmPassword", PasswordsDontMatch);
  }

  datatype SignInForm = SignInForm(email: string, password: string)

  /** `signInSchema`: any non-empty password. */
  function SignIn(email: string, password: string, isEmail: string -> bool): (r: Parsed<SignInForm>)
    ensures r.Valid? <==> Email(email, isEmail).Accepted() && password != ""
    ensures r.Valid? ==> r.value == SignInForm(Lower(Trim(email)), password)
  {
    var issues := At("email", Email(email, isEmail).errors)
      + At("password", Check(|password| >= 1, PasswordRequired));
    if issues == [] then Valid(SignInForm(Lower(Trim(email)), password)) else Invalid(issues)
  }

  datatype ContactForm = ContactForm(name: string, phone: string, email: Option<string>,
                                     relationship: string, isPrimary: Option<bool>)

  /** `emergencyContactSchema`: the phone number is required here. */
  function EmergencyContact(name: string, phone: string, email: Option<string>, relationship: string,
                            isPrimary: Option<bool>, isEmail: string -> bool): (r: Parsed<ContactForm>)
    ensures r.Valid? <==>
            && Name(name).Accepted() && PhonePattern(Trim(phone))
            && (email.Some? ==> Email(email.value, isEmail).Accepted())
            && Relationship(relationship).Accepted()
    ensures r.Valid? ==>
              && r.value.name == Trim(name) && r.value.phone == Trim(phone)
              && r.value.relationship == Trim(relationship) && r.value.isPrimary == isPrimary
  {
    var n := Name(name);
    var p := Trim(phone);
    var e := if email.Some? then Email(email.value, isEmail) else Checked("", []);
    var rel := Relationship(relationship);
    var issues := At("contact_name", n.errors)
      + At("contact_phone", Check(PhonePattern(p), ContactPhoneFormat))
      + At("contact_email", e.errors)
      + At("relationship", rel.errors);
    if issues == [] then
      Valid(ContactForm(n.value, p, if email.Some? then Some(e.value) else None, rel.value, isPrimary))
    else Invalid(issues)
  }

  datatype ProfileForm = ProfileForm(fullName: string, dateOfBirth: string, phone: Option<string>,
                                     bio: Option<string>, location: Option<string>)

  /**
   * `profileSetupSchema`.  The date-of-birth rule depends on the clock and
   * is given as its verdict `dateOfBirthOk`.
   */
  function ProfileSetup(fullName: string, dateOfBirth: string, dateOfBirthOk: bool, phone: Option<string>,
                        bio: Option<string>, location: Option<string>): (r: Parsed<ProfileForm>)
    ensures r.Valid? <==>
            Name(fullName).Accepted() && dateOfBirthOk && Phone(phone).Accepted()
            && Bio(bio).Accepted() && Location(location).Accepted()
    ensures r.Valid? ==> r.value.fullName == Trim(fullName) && r.value.phone == Phone(phone).value
  {
    var issues := At("full_name", Name(fullName).errors)
      + At("date_of_birth", Check(dateOfBirthOk, DateOfBirthRange))
      + At("phone_number", Phone(phone).errors)
      + At("bio", Bio(bio).errors)
      + At("location", Location(location).errors);
    if issues == [] then
      Valid(ProfileForm(Trim(fullName), dateOfBirth, Phone(phone).value, Bio(bio).value, Location(location).value))
    else Invalid(issues)
  }
}
