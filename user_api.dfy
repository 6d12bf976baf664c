/** The customer-side enquiry call (`userApi.js`, `sendEnquiry`): a presence check on the
    form, then the body the server's `EnquiryCreate` receives, with the text fields
    trimmed, the phone turned into a string and a blank company sent as null. */
module UserApi {
  import opened Common
  import opened Strings
  import opened UserSchemas

  /** The contact form's values; the phone may come as text or as a number. */
  datatype EnquiryForm = EnquiryForm(
    name: string, phone: PhoneInput, email: string, company: Option<string>, message: string)

  /** `sendEnquiry` either throws before any request or posts a body. */
  datatype Sent = Thrown(error: string) | Posted(body: EnquiryBody)

  const MissingEnquiryFields := "Missing enquiry fields"

  /** JavaScript truthiness of the phone: the empty string and the number 0 are falsy. */
  predicate PhoneGiven(p: PhoneInput) {
    match p
    case PhoneText(t) => t != ""
    case PhoneNumber(n) => n != 0
  }

  /** `String(phone)`; for an integer it agrees with Python's `str`. */
  function PhoneString(p: PhoneInput): (s: string)
    ensures p.PhoneText? ==> s == p.text
    ensures p.PhoneNumber? ==> s != "" && ParseIntJs(s) == Some(p.number)
  {
    NormalizePhone(p)
  }

  /** `company?.trim() || null`. */
  function CompanyField(c: Option<string>): (r: Option<string>)
    ensures r.None? <==> c.None? || Trim(c.value) == ""
    ensures r.Some? ==> r.value == Trim(c.value) && r.value != ""
  {
    if c.Some? && Trim(c.value) != "" then Some(Trim(c.value)) else None
  }

  /** No white space at either end. */
  predicate Trimmed(s: string) {
    s == [] || (!IsJsSpace(s[0]) && !IsJsSpace(s[|s| - 1]))
  }

  function SendEnquiry(d: EnquiryForm): (r: Sent)
    ensures r.Thrown? <==> d.name == "" || !PhoneGiven(d.phone) || d.email == "" || d.message == ""
    ensures r.Thrown? ==> r.error == MissingEnquiryFields
    ensures r.Posted? ==>
      && r.body.name == Trim(d.name) && r.body.email == Trim(d.email) && r.body.message == Trim(d.message)
      && Trimmed(r.body.name) && Trimmed(r.body.email) && Trimmed(r.body.message)
      && r.body.phone == PhoneText(PhoneString(d.phone))
      && r.body.company == CompanyField(d.company)
  {
    if d.name == "" || !PhoneGiven(d.phone) || d.email == "" || d.message == "" then
      Thrown(MissingEnquiryFields)
    else
      Posted(EnquiryBody(Trim(d.name), PhoneText(PhoneString(d.phone)), Trim(d.email),
                         CompanyField(d.company), Trim(d.message)))
  }

  /** A string with no white space at either end is its own trim. */
  lemma TrimmedFixed(s: string)
    requires Trimmed(s)
    ensures Trim(s) == s
  {
    assert TrimStart(s) == s;
    assert TrimEnd(s) == s;
  }

  lemma TrimIdempotent(s: string)
    ensures Trim(Trim(s)) == Trim(s)
  {
    TrimmedFixed(Trim(s));
  }

  /** Feeding a posted body back through `sendEnquiry` posts the same body again, unless
      trimming left a required field empty: the normalisation is idempotent. */
  lemma SendEnquiryIdempotent(d: EnquiryForm)
    requires SendEnquiry(d).Posted?
    requires var b := SendEnquiry(d).body; b.name != "" && b.email != "" && b.message != ""
    ensures var b := SendEnquiry(d).body;
            SendEnquiry(EnquiryForm(b.name, b.phone, b.email, b.company, b.message)) == Posted(b)
  {
    var b := SendEnquiry(d).body;
    TrimIdempotent(d.name);
    TrimIdempotent(d.email);
    TrimIdempotent(d.message);
    if d.company.Some? && Trim(d.company.value) != "" {
      TrimIdempotent(d.company.value);
    }
    assert PhoneGiven(b.phone) by {
      if d.phone.PhoneNumber? {
        assert ParseIntJs(b.phone.text) == Some(d.phone.number);
      }
    }
  }

  /** The server keeps the phone exactly as sent, since it now arrives as text. */
  lemma ServerKeepsSentPhone(d: EnquiryForm, isEmail: string -> bool, normalize: string -> string)
    requires SendEnquiry(d).Posted? && ValidateEnquiry(SendEnquiry(d).body, isEmail, normalize).Ok?
    ensures ValidateEnquiry(SendEnquiry(d).body, isEmail, normalize).value.phone == PhoneString(d.phone)
  {
  }

  /** The presence check looks at the untrimmed values: a name of blanks passes it, and it
      is the server's length check that refuses the enquiry. */
  lemma BlankNameRefusedByServer(d: EnquiryForm, isEmail: string -> bool, normalize: string -> string)
    requires d.name != "" && forall i :: 0 <= i < |d.name| ==> IsJsSpace(d.name[i])
    requires PhoneGiven(d.phone) && d.email != "" && d.message != ""
    ensures SendEnquiry(d).Posted?
    ensures ValidateEnquiry(SendEnquiry(d).body, isEmail, normalize).Err?
  {
  }
}
