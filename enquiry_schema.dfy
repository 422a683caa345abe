/** The client-side enquiry schema: one predicate per field and their conjunction,
    and the field-scoped issues a failed validation reports. The email check is a
    parameter, since the model does not define what a well-formed address is. */
module EnquirySchema {

  /** The values of the enquiry form. */
  datatype EnquiryFormValues = EnquiryFormValues(
    productName: string, name: string, email: string, mobile: string, enquiry: string)

  // ---------------------------------------------------------------------------
  // The mobile pattern `^\+?[0-9\s-()]*$`

  /** The characters the regular-expression class `\s` matches: white space and
      line terminators. */
  predicate IsRegexSpace(c: char)
  {
    var n := c as int;
    n == 0x09 || n == 0x0A || n == 0x0B || n == 0x0C || n == 0x0D || n == 0x20 || n == 0xA0
    || n == 0x1680 || (0x2000 <= n <= 0x200A) || n == 0x2028 || n == 0x2029 || n == 0x202F
    || n == 0x205F || n == 0x3000 || n == 0xFEFF
  }

  /** The class `[0-9\s-()]`: a digit, white space, `-`, `(` or `)`. The `-` after
      `\s` is a literal, not a range. */
  predicate IsPhoneChar(c: char)
  {
    ('0' <= c <= '9') || IsRegexSpace(c) || c == '-' || c == '(' || c == ')'
  }

  predicate AllPhoneChars(s: string)
  {
    forall i :: 0 <= i < |s| ==> IsPhoneChar(s[i])
  }

  /** The whole string matches the pattern: a leading `+` is skipped, everything
      else is in the class. */
  predicate MatchesMobilePattern(s: string)
  {
    if s != [] && s[0] == '+' then AllPhoneChars(s[1..]) else AllPhoneChars(s)
  }

  /** The pattern, read as the regular expression reads: the string splits into an
      optional `+` and a run of class characters. */
  lemma MobilePatternIff(s: string)
    ensures MatchesMobilePattern(s) <==>
      exists p, rest :: (p == "" || p == "+") && s == p + rest && AllPhoneChars(rest)
  {
    if MatchesMobilePattern(s) {
      if s != [] && s[0] == '+' {
        assert s == "+" + s[1..];
      } else {
        assert s == "" + s;
      }
    }
    if exists p, rest :: (p == "" || p == "+") && s == p + rest && AllPhoneChars(rest) {
      var p, rest :| (p == "" || p == "+") && s == p + rest && AllPhoneChars(rest);
      if p == "+" {
        assert s[1..] == rest;
      } else {
        assert s == rest;
        assert s != [] ==> IsPhoneChar(s[0]);
      }
    }
  }

  // ---------------------------------------------------------------------------
  // Field predicates

  /** `productName: z.string()` accepts every string. */
  predicate ProductNameValid(s: string)
  {
    true
  }

  /** `name: z.string().min(2)`. */
  predicate NameValid(s: string)
  {
    |s| >= 2
  }

  /** `mobile: z.string().min(10).regex(...)`. */
  predicate MobileValid(s: string)
  {
    |s| >= 10 && MatchesMobilePattern(s)
  }

  /** `enquiry: z.string().min(10).max(500)`, both bounds inclusive. */
  predicate EnquiryValid(s: string)
  {
    10 <= |s| <= 500
  }

  /** The whole schema. */
  predicate ValidPayload(v: EnquiryFormValues, isEmail: string -> bool)
  {
    ProductNameValid(v.productName) && NameValid(v.name) && isEmail(v.email)
    && MobileValid(v.mobile) && EnquiryValid(v.enquiry)
  }

  // ---------------------------------------------------------------------------
  // Field-scoped issues

  datatype Field = ProductNameField | NameField | EmailField | MobileField | EnquiryField

  datatype Issue = Issue(field: Field, message: string)

  const NameTooShort: string := "Name must be at least 2 characters."
  const InvalidEmail: string := "Invalid email address."
  const MobileTooShort: string := "Mobile number must be at least 10 digits."
  const MobileBadFormat: string := "Invalid mobile number format."
  const EnquiryTooShort: string := "Enquiry must be at least 10 characters."
  const EnquiryTooLong: string := "Enquiry must be less than 500 characters."

  predicate HasIssue(issues: seq<Issue>, f: Field)
  {
    exists i :: 0 <= i < |issues| && issues[i].field == f
  }

  /** The issues of the name field. */
  function NameIssues(s: string): (r: seq<Issue>)
    ensures r == [] <==> NameValid(s)
    ensures forall f :: HasIssue(r, f) <==> f == NameField && !NameValid(s)
  {
    var r := if |s| < 2 then [Issue(NameField, NameTooShort)] else [];
    assert !NameValid(s) ==> r[0].field == NameField;
    r
  }

  /** The issues of the email field. */
  function EmailIssues(s: string, isEmail: string -> bool): (r: seq<Issue>)
    ensures r == [] <==> isEmail(s)
    ensures forall f :: HasIssue(r, f) <==> f == EmailField && !isEmail(s)
  {
    var r := if !isEmail(s) then [Issue(EmailField, InvalidEmail)] else [];
    assert !isEmail(s) ==> r[0].field == EmailField;
    r
  }

  /** The issues of the mobile field: the length check, then the pattern check. */
  function MobileIssues(s: string): (r: seq<Issue>)
    ensures r == [] <==> MobileValid(s)
    ensures forall f :: HasIssue(r, f) <==> f == MobileField && !MobileValid(s)
  {
    var a := if |s| < 10 then [Issue(MobileField, MobileTooShort)] else [];
    var b := if !MatchesMobilePattern(s) then [Issue(MobileField, MobileBadFormat)] else [];
    assert |s| < 10 ==> a[0].field == MobileField;
    assert !MatchesMobilePattern(s) ==> b[0].field == MobileField;
    forall f ensures HasIssue(a + b, f) <==> HasIssue(a, f) || HasIssue(b, f) {
      HasIssueAppend(a, b, f);
    }
    a + b
  }

  /** The issues of the enquiry field: the lower bound, then the upper bound. */
  function EnquiryIssues(s: string): (r: seq<Issue>)
    ensures r == [] <==> EnquiryValid(s)
    ensures forall f :: HasIssue(r, f) <==> f == EnquiryField && !EnquiryValid(s)
  {
    var a := if |s| < 10 then [Issue(EnquiryField, EnquiryTooShort)] else [];
    var b := if |s| > 500 then [Issue(EnquiryField, EnquiryTooLong)] else [];
    assert |s| < 10 ==> a[0].field == EnquiryField;
    assert |s| > 500 ==> b[0].field == EnquiryField;
    forall f ensures HasIssue(a + b, f) <==> HasIssue(a, f) || HasIssue(b, f) {
      HasIssueAppend(a, b, f);
    }
    a + b
  }

  /** Every check of every field runs, in field order, and each failed check adds its
      issue: the result is empty exactly for a valid payload, and names a field exactly
      when that field's rule fails. */
  function Validate(v: EnquiryFormValues, isEmail: string -> bool): (issues: seq<Issue>)
    ensures issues == [] <==> ValidPayload(v, isEmail)
    ensures !HasIssue(issues, ProductNameField)
    ensures HasIssue(issues, NameField) <==> !NameValid(v.name)
    ensures HasIssue(issues, EmailField) <==> !isEmail(v.email)
    ensures HasIssue(issues, MobileField) <==> !MobileValid(v.mobile)
    ensures HasIssue(issues, EnquiryField) <==> !EnquiryValid(v.enquiry)
  {
    var name := NameIssues(v.name);
    var email := EmailIssues(v.email, isEmail);
    var mobile := MobileIssues(v.mobile);
    var enquiry := EnquiryIssues(v.enquiry);
    var issues := name + email + mobile + enquiry;
    forall f ensures HasIssue(issues, f) <==>
      HasIssue(name, f) || HasIssue(email, f) || HasIssue(mobile, f) || HasIssue(enquiry, f)
    {
      HasIssueAppend(name, email, f);
      HasIssueAppend(name + email, mobile, f);
      HasIssueAppend(name + email + mobile, enquiry, f);
    }
    issues
  }

  lemma HasIssueAppend(a: seq<Issue>, b: seq<Issue>, f: Field)
    ensures HasIssue(a + b, f) <==> HasIssue(a, f) || HasIssue(b, f)
  {
    if HasIssue(a, f) {
      var i :| 0 <= i < |a| && a[i].field == f;
      assert (a + b)[i] == a[i];
    }
    if HasIssue(b, f) {
      var i :| 0 <= i < |b| && b[i].field == f;
      assert (a + b)[|a| + i] == b[i];
    }
    if HasIssue(a + b, f) {
      var i :| 0 <= i < |a + b| && (a + b)[i].field == f;
      if i >= |a| {
        assert b[i - |a|] == (a + b)[i];
      }
    }
  }

  /** An empty mobile is rejected on the client; the two bounds of the enquiry are accepted. */
  lemma ClientBoundaryCases()
    ensures !MobileValid("")
    ensures forall s: string :: |s| == 500 ==> EnquiryValid(s)
    ensures forall s: string :: |s| == 10 ==> EnquiryValid(s)
  {
  }
}
