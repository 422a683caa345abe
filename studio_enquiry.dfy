/** The `productEnquiry` document type of the content studio: its field rules, the
    mobile `custom` validator, the status list and the list preview. The last part
    sets its rules beside the client schema's. */
module StudioEnquiry {
  import opened Wrappers
  import opened EnquirySchema

  // ---------------------------------------------------------------------------
  // Field rules

  /** What a `custom` validator returns: `true`, or the message of the failure. */
  datatype CustomVerdict = Accepted | Rejected(message: string)

  const StudioMobileFormat: string := "Invalid mobile number format."
  const StudioMobileLength: string := "Mobile number should be at least 10 digits."

  /** The mobile field's `custom` validator: an absent or empty number is accepted;
      otherwise the format is checked first and the length second. */
  function ValidateMobile(mobile: Option<string>): (r: CustomVerdict)
    ensures r == Accepted <==> !Truthy(mobile) || MobileValid(mobile.value)
    ensures Truthy(mobile) && !MatchesMobilePattern(mobile.value) ==> r == Rejected(StudioMobileFormat)
    ensures Truthy(mobile) && MatchesMobilePattern(mobile.value) && |mobile.value| < 10 ==>
      r == Rejected(StudioMobileLength)
  {
    if Truthy(mobile) && !MatchesMobilePattern(mobile.value) then Rejected(StudioMobileFormat)
    else if Truthy(mobile) && |mobile.value| < 10 then Rejected(StudioMobileLength)
    else Accepted
  }

  /** `customerName`: required, at least 2 characters. */
  predicate CustomerNameValid(name: Option<string>)
  {
    name.Some? && |name.value| >= 2
  }

  /** `email`: required and an address. */
  predicate StudioEmailValid(email: Option<string>, isEmail: string -> bool)
  {
    email.Some? && isEmail(email.value)
  }

  /** `message`: required, between 10 and 5000 characters. */
  predicate MessageValid(message: Option<string>)
  {
    message.Some? && 10 <= |message.value| <= 5000
  }

  // ---------------------------------------------------------------------------
  // Status

  /** The radio options of `status`: title and stored value. */
  const StatusOptions: seq<(string, string)> :=
    [("New", "new"), ("In Progress", "in_progress"), ("Resolved", "resolved"), ("Closed", "closed")]

  /** The initial status of a new document: the value of the first option. */
  function InitialStatus(): (s: string)
    ensures exists i :: 0 <= i < |StatusOptions| && StatusOptions[i] == ("New", s)
  {
    assert StatusOptions[0] == ("New", "new");
    "new"
  }

  // ---------------------------------------------------------------------------
  // Preview

  /** A value interpolated into a template string: absent shows as `undefined`. */
  function Interpolated(s: Option<string>): (shown: string)
    ensures s.Some? ==> shown == s.value
    ensures s.None? ==> shown == "undefined"
  {
    if s.Some? then s.value else "undefined"
  }

  /** The preview title `${title || 'Enquiry'} from ${customer || 'Unknown'}`. */
  function PreviewTitle(productName: Option<string>, customer: Option<string>): (t: string)
    ensures var head := OrElse(productName, "Enquiry");
      && |head| <= |t|
      && t[..|head|] == head
      && t[|head|..] == " from " + OrElse(customer, "Unknown")
    ensures !Truthy(productName) ==> t[..13] == "Enquiry from "
    ensures !Truthy(customer) ==> t[|t| - 7..] == "Unknown"
  {
    var head := OrElse(productName, "Enquiry");
    var t := head + " from " + OrElse(customer, "Unknown");
    assert t[..|head|] == head;
    assert t[|head|..] == " from " + OrElse(customer, "Unknown");
    t
  }

  /** The preview subtitle; the submission date is shown through `formatDate`
      (`toLocaleDateString`), or as `No date`. */
  function PreviewSubtitle(email: Option<string>, submittedAt: Option<string>, status: Option<string>,
                           formatDate: string -> string): (t: string)
    ensures var tail := " - Status: " + OrElse(status, "New");
      |tail| <= |t| && t[|t| - |tail|..] == tail
    ensures Interpolated(email) <= t
  {
    var date := if Truthy(submittedAt) then formatDate(submittedAt.value) else "No date";
    var head := Interpolated(email);
    var tail := " - Status: " + OrElse(status, "New");
    var t := head + " - Submitted: " + date + tail;
    assert t[|t| - |tail|..] == tail;
    assert t[..|head|] == head;
    t
  }

  // ---------------------------------------------------------------------------
  // Client rules against studio rules

  /** Everything the client schema admits passes the studio's rules for the
      corresponding fields (name as customer name, enquiry as message). */
  lemma ClientRulesImplyStudioRules(v: EnquiryFormValues, isEmail: string -> bool)
    requires ValidPayload(v, isEmail)
    ensures CustomerNameValid(Some(v.name))
    ensures StudioEmailValid(Some(v.email), isEmail)
    ensures ValidateMobile(Some(v.mobile)) == Accepted
    ensures MessageValid(Some(v.enquiry))
  {
  }

  /** The studio is looser: it accepts a missing or empty mobile, which the client
      rejects, and messages of 501 to 5000 characters, which the client rejects too. */
  lemma StudioRulesAreLooser()
    ensures ValidateMobile(None) == Accepted && ValidateMobile(Some("")) == Accepted && !MobileValid("")
    ensures exists m :: MessageValid(Some(m)) && !EnquiryValid(m)
  {
    var m := seq(501, _ => 'a');
    assert MessageValid(Some(m)) && !EnquiryValid(m);
  }
}
