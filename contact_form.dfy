/** The contact form: a five-field draft, a parallel record of error strings,
    a validator that recomputes every error, and the submit sequence
    editing -> submitting -> success -> reset. The two timers of the submit
    sequence (the simulated 2000 ms request and the 3000 ms reset) are the
    events `SubmissionResolves` and `ResetFires`. */
module ContactForm {
  import opened Text

  datatype Field = Name | Email | Company | LicenseType | Message

  /** One string per form field. The draft (`formData`) and the error record
      (`errors`) both have this shape. */
  datatype FieldRecord = FieldRecord(
    name: string, email: string, company: string, licenseType: string, message: string)
  {
    function Get(f: Field): string {
      match f
      case Name => name
      case Email => email
      case Company => company
      case LicenseType => licenseType
      case Message => message
    }

    /** `{ ...prev, [f]: v }`: field `f` becomes `v`, the other four keep their value. */
    function Set(f: Field, v: string): (r: FieldRecord)
      ensures r.Get(f) == v
      ensures forall g :: g != f ==> r.Get(g) == Get(g)
    {
      match f
      case Name => this.(name := v)
      case Email => this.(email := v)
      case Company => this.(company := v)
      case LicenseType => this.(licenseType := v)
      case Message => this.(message := v)
    }
  }

  /** The initial draft, the initial error record and the draft after a reset. */
  const Empty := FieldRecord("", "", "", "", "")

  /** The options of the licence-type select. The validator never consults
      this list: it only checks that a type was chosen. */
  const LicenseTypes: seq<string> := ["Microsoft", "Adobe", "Oracle", "Salesforce", "VMware", "Other"]

  const NameRequired := "Name is required"
  const EmailRequired := "Email is required"
  const EmailInvalid := "Invalid email format"
  const CompanyRequired := "Company is required"
  const LicenseTypeRequired := "Please select a license type"
  const MessageRequired := "Message is required"

  // ---------------------------------------------------------------------------
  // The email pattern ^[^\s@]+@[^\s@]+\.[^\s@]+$

  /** A run of the character class `[^\s@]`. */
  predicate NoAtOrSpace(s: string) {
    forall i :: 0 <= i < |s| ==> s[i] != '@' && !IsWhitespace(s[i])
  }

  /** The pattern read as a grammar: `s` splits at an '@' (index i) and a later
      '.' (index j) into three non-empty runs of `[^\s@]`. */
  ghost predicate SplitsAsEmail(s: string, i: int, j: int) {
    && 0 < i && i + 1 < j && j + 1 < |s|
    && s[i] == '@' && s[j] == '.'
    && NoAtOrSpace(s[..i]) && NoAtOrSpace(s[i + 1..j]) && NoAtOrSpace(s[j + 1..])
  }

  ghost predicate MatchesEmailPattern(s: string) {
    exists i, j :: SplitsAsEmail(s, i, j)
  }

  /** Index of the first '@' in `s`, or |s| when there is none. */
  function FirstAt(s: string): (i: nat)
    ensures i <= |s|
    ensures i < |s| ==> s[i] == '@'
    ensures forall k :: 0 <= k < i ==> s[k] != '@'
  {
    if s == [] || s[0] == '@' then 0 else 1 + FirstAt(s[1..])
  }

  /** The domain part: a run of `[^\s@]` holding a '.' that is neither its
      first nor its last character. */
  predicate DomainMatches(d: string) {
    NoAtOrSpace(d) && exists k :: 0 < k < |d| - 1 && d[k] == '.'
  }

  /** The pattern matched from the first '@': the local part runs up to it
      and the rest is a domain. */
  predicate SplitsAtFirstAt(s: string) {
    var i := FirstAt(s);
    0 < i < |s| && NoAtOrSpace(s[..i]) && DomainMatches(s[i + 1..])
  }

  /** `emailRegex.test(s)`: accepts exactly the strings the pattern
      describes. */
  predicate EmailPatternTest(s: string): (b: bool)
    ensures b <==> MatchesEmailPattern(s)
  {
    FirstAtSplitCorrect(s);
    SplitsAtFirstAt(s)
  }

  /** Since a run of `[^\s@]` holds no '@', the only '@' a match can split at
      is the first one. */
  lemma FirstAtSplitCorrect(s: string)
    ensures SplitsAtFirstAt(s) <==> MatchesEmailPattern(s)
  {
    var i := FirstAt(s);
    if SplitsAtFirstAt(s) {
      var d := s[i + 1..];
      var k :| 0 < k < |d| - 1 && d[k] == '.';
      var j := i + 1 + k;
      assert s[i + 1..j] == d[..k];
      assert s[j + 1..] == d[k + 1..];
      assert SplitsAsEmail(s, i, j);
    }
    if MatchesEmailPattern(s) {
      var i', j :| SplitsAsEmail(s, i', j);
      assert i == i';
      var d := s[i + 1..];
      forall m | 0 <= m < |d| ensures d[m] != '@' && !IsWhitespace(d[m]) {
        if m < j - i - 1 {
          assert d[m] == s[i + 1..j][m];
        } else if m > j - i - 1 {
          assert d[m] == s[j + 1..][m - (j - i)];
        }
      }
      assert d[j - i - 1] == '.';
      assert DomainMatches(d);
    }
  }

  // ---------------------------------------------------------------------------
  // Validation

  /** The message a field gets when its "required" rule fires. */
  function RequiredMessage(f: Field): string {
    match f
    case Name => NameRequired
    case Email => EmailRequired
    case Company => CompanyRequired
    case LicenseType => LicenseTypeRequired
    case Message => MessageRequired
  }

  /** Whether a field's "required" rule fires: the licence type when it is
      the empty string, any other field when it is blank after trimming. */
  predicate Missing(f: Field, d: FieldRecord) {
    if f == LicenseType then d.Get(f) == "" else IsBlank(d.Get(f))
  }

  /** The rule for one field, as the validator applies it. The email is
      checked for blankness first and then matched UNTRIMMED; the licence
      type is only checked for being the empty string. */
  function FieldError(f: Field, d: FieldRecord): string {
    match f
    case Name => if IsBlank(d.name) then NameRequired else ""
    case Email =>
      if IsBlank(d.email) then EmailRequired
      else if !EmailPatternTest(d.email) then EmailInvalid
      else ""
    case Company => if IsBlank(d.company) then CompanyRequired else ""
    case LicenseType => if d.licenseType == "" then LicenseTypeRequired else ""
    case Message => if IsBlank(d.message) then MessageRequired else ""
  }

  /** The error record a validation pass writes for draft `d`. */
  function ExpectedErrors(d: FieldRecord): FieldRecord {
    FieldRecord(FieldError(Name, d), FieldError(Email, d), FieldError(Company, d),
                FieldError(LicenseType, d), FieldError(Message, d))
  }

  /** Every field of the error record holds the verdict of that field's own
      rule: empty or one of the field's own messages. "Required" fires
      exactly when the field is missing and wins over the format check; a
      present email is then accepted exactly when it matches the pattern. */
  lemma FieldRules(d: FieldRecord, f: Field)
    ensures ExpectedErrors(d).Get(f) == FieldError(f, d)
    ensures FieldError(f, d) == "" || FieldError(f, d) == RequiredMessage(f) || (f == Email && FieldError(f, d) == EmailInvalid)
    ensures FieldError(f, d) == RequiredMessage(f) <==> Missing(f, d)
    ensures f == Email && !Missing(f, d) ==> (FieldError(f, d) == "" <==> MatchesEmailPattern(d.email))
  {
  }

  /** `validateForm`: copies the current error record, overwrites each field's
      error in turn while clearing `valid` on every failed rule, and returns
      the new record with the verdict. */
  method ValidateForm(formData: FieldRecord, errors: FieldRecord) returns (valid: bool, newErrors: FieldRecord)
    ensures newErrors == ExpectedErrors(formData)
    ensures valid <==> newErrors == Empty
  {
    valid := true;
    newErrors := errors;

    if IsBlank(formData.name) {
      newErrors := newErrors.(name := NameRequired);
      valid := false;
    } else {
      newErrors := newErrors.(name := "");
    }

    if IsBlank(formData.email) {
      newErrors := newErrors.(email := EmailRequired);
      valid := false;
    } else if !EmailPatternTest(formData.email) {
      newErrors := newErrors.(email := EmailInvalid);
      valid := false;
    } else {
      newErrors := newErrors.(email := "");
    }

    if IsBlank(formData.company) {
      newErrors := newErrors.(company := CompanyRequired);
      valid := false;
    } else {
      newErrors := newErrors.(company := "");
    }

    if formData.licenseType == "" {
      newErrors := newErrors.(licenseType := LicenseTypeRequired);
      valid := false;
    } else {
      newErrors := newErrors.(licenseType := "");
    }

    if IsBlank(formData.message) {
      newErrors := newErrors.(message := MessageRequired);
      valid := false;
    } else {
      newErrors := newErrors.(message := "");
    }
  }

  /** A draft passes validation exactly when every field meets its rule:
      name, company and message are not blank, the email is not blank and
      matches the pattern, and some licence type is chosen. */
  lemma PassesIffEveryRuleHolds(d: FieldRecord)
    ensures ExpectedErrors(d) == Empty <==>
      && !IsBlank(d.name)
      && !IsBlank(d.email) && MatchesEmailPattern(d.email)
      && !IsBlank(d.company)
      && d.licenseType != ""
      && !IsBlank(d.message)
  {
  }

  /** The three email outcomes, with "required" taking precedence over
      "invalid": a blank email is never reported as badly formatted. */
  lemma EmailErrorCases(d: FieldRecord)
    ensures IsBlank(d.email) ==> ExpectedErrors(d).email == EmailRequired
    ensures !IsBlank(d.email) && !MatchesEmailPattern(d.email) ==> ExpectedErrors(d).email == EmailInvalid
    ensures !IsBlank(d.email) && MatchesEmailPattern(d.email) ==> ExpectedErrors(d).email == ""
  {
  }

  /** The pattern accepts "a@b.co" and rejects a string without '@', a domain
      without '.', an empty local part and a second '@'. */
  lemma EmailPatternExamples()
    ensures MatchesEmailPattern("a@b.co")
    ensures !MatchesEmailPattern("not-an-email")
    ensures !MatchesEmailPattern("a@b")
    ensures !MatchesEmailPattern("@b.co")
    ensures !MatchesEmailPattern("a@b@c.co")
  {
    assert SplitsAsEmail("a@b.co", 1, 3);
    var noAt := "not-an-email";
    forall k | 0 <= k < |noAt| ensures noAt[k] != '@' { }
    var twoAts := "a@b@c.co";
    assert FirstAt(twoAts[1..]) == 0;
    assert FirstAt(twoAts) == 1;
    assert twoAts[2..][1] == '@';
    assert !EmailPatternTest(twoAts);
  }

  /** Every character of a matching string is visible, so whitespace anywhere,
      leading and trailing blanks included, defeats the pattern. */
  lemma MatchHasNoWhitespace(s: string, k: int)
    requires MatchesEmailPattern(s) && 0 <= k < |s|
    ensures !IsWhitespace(s[k])
  {
    var i, j :| SplitsAsEmail(s, i, j);
    if k < i {
      assert s[k] == s[..i][k];
    } else if i < k < j {
      assert s[k] == s[i + 1..j][k - i - 1];
    } else if j < k {
      assert s[k] == s[j + 1..][k - j - 1];
    }
  }

  /** The pattern is applied to the untrimmed email: an email that is not
      blank but holds whitespace, such as " a@b.co", passes the "required"
      check and is then reported as badly formatted. */
  lemma UntrimmedEmailIsInvalid(d: FieldRecord, k: int)
    requires !IsBlank(d.email)
    requires 0 <= k < |d.email| && IsWhitespace(d.email[k])
    ensures ExpectedErrors(d).email == EmailInvalid
  {
    if MatchesEmailPattern(d.email) {
      MatchHasNoWhitespace(d.email, k);
    }
  }

  /** " a@b.co" is such an email. */
  lemma LeadingSpaceEmailIsInvalid(d: FieldRecord)
    requires d.email == " a@b.co"
    ensures ExpectedErrors(d).email == EmailInvalid
  {
    assert !IsWhitespace(d.email[1]);
    UntrimmedEmailIsInvalid(d, 0);
  }

  /** The licence type gets its error exactly when it is the empty string:
      any other value passes, including one that is not among the six
      offered options. */
  lemma LicenseTypeNotCheckedAgainstOptions(d: FieldRecord)
    ensures ExpectedErrors(d).licenseType == LicenseTypeRequired <==> d.licenseType == ""
    ensures d.licenseType != "" ==> ExpectedErrors(d).licenseType == ""
    ensures d.licenseType != "" && d.licenseType !in LicenseTypes ==> ExpectedErrors(d).licenseType == ""
  {
  }

  // ---------------------------------------------------------------------------
  // The component's state

  class ContactFormState {
    var formData: FieldRecord
    var errors: FieldRecord
    var isSubmitting: bool
    var showSuccess: bool

    /** The form is never submitting and showing success at once, and while
        either flag is up the last validation pass found no error. */
    ghost predicate Valid()
      reads this
    {
      && !(isSubmitting && showSuccess)
      && (isSubmitting || showSuccess ==> errors == Empty)
    }

    constructor ()
      ensures Valid()
      ensures formData == Empty && errors == Empty
      ensures !isSubmitting && !showSuccess
    {
      formData := Empty;
      errors := Empty;
      isSubmitting := false;
      showSuccess := false;
    }

    /** `handleChange`: field `f` takes the new value; its error, if it had
        one, is cleared whatever the new value is; nothing else changes. */
    method HandleChange(f: Field, value: string)
      requires Valid()
      modifies this
      ensures Valid()
      ensures formData.Get(f) == value
      ensures forall g :: g != f ==> formData.Get(g) == old(formData.Get(g))
      ensures errors.Get(f) == ""
      ensures forall g :: g != f ==> errors.Get(g) == old(errors.Get(g))
      ensures isSubmitting == old(isSubmitting) && showSuccess == old(showSuccess)
    {
      formData := formData.Set(f, value);
      if errors.Get(f) != "" {
        errors := errors.Set(f, "");
      }
    }

    /** The synchronous part of `handleSubmit`: validate, store the new error
        record, and start submitting when the draft is valid. The form is
        hidden while the success message shows and its submit button is
        disabled while submitting, so a submit arrives only in neither state. */
    method HandleSubmit() returns (valid: bool)
      requires Valid()
      requires !isSubmitting && !showSuccess
      modifies this
      ensures Valid()
      ensures errors == ExpectedErrors(formData)
      ensures valid <==> errors == Empty
      ensures formData == old(formData)
      ensures isSubmitting == valid && !showSuccess
    {
      valid, errors := ValidateForm(formData, errors);
      if valid {
        isSubmitting := true;
      }
    }

    /** The simulated request resolves after 2000 ms: show the success message
        and stop submitting. */
    method SubmissionResolves()
      requires Valid()
      requires isSubmitting
      modifies this
      ensures Valid()
      ensures showSuccess && !isSubmitting
      ensures formData == old(formData) && errors == old(errors)
    {
      showSuccess := true;
      isSubmitting := false;
    }

    /** The reset fires 3000 ms after success: the draft is emptied and the
        success message hidden; the error record, already empty, is left alone. */
    method ResetFires()
      requires Valid()
      requires showSuccess
      modifies this
      ensures Valid()
      ensures formData == Empty && errors == Empty
      ensures !showSuccess && !isSubmitting
    {
      formData := Empty;
      showSuccess := false;
    }
  }

  /** The sample address of the form's placeholder matches. */
  lemma SampleEmailMatches(e: string)
    requires e == "john@company.com"
    ensures EmailPatternTest(e)
  {
    assert SplitsAsEmail(e, 4, 12);
  }

  /** A draft with every field filled in and a well-formed email passes. */
  lemma SampleDraftPasses(d: FieldRecord)
    requires d.name == "John Doe" && d.email == "john@company.com" && d.company == "Acme"
    requires d.licenseType == "Adobe" && d.message == "Hello"
    ensures ExpectedErrors(d) == Empty
  {
    assert FieldError(Name, d) == "" by { assert !IsWhitespace(d.name[0]); }
    assert FieldError(Email, d) == "" by {
      assert !IsWhitespace(d.email[0]);
      SampleEmailMatches(d.email);
    }
    assert FieldError(Company, d) == "" by { assert !IsWhitespace(d.company[0]); }
    assert FieldError(Message, d) == "" by { assert !IsWhitespace(d.message[0]); }
  }

  /** A fully valid draft goes editing -> submitting -> success -> an empty
      draft with no errors. */
  method ValidSubmitScenario()
    returns (afterSubmit: (bool, bool), afterResolve: (bool, bool), afterReset: (bool, bool),
             finalDraft: FieldRecord, finalErrors: FieldRecord)
    ensures afterSubmit == (true, false) && afterResolve == (false, true) && afterReset == (false, false)
    ensures finalDraft == Empty && finalErrors == Empty
  {
    var form := new ContactFormState();
    form.HandleChange(Name, "John Doe");
    form.HandleChange(Email, "john@company.com");
    form.HandleChange(Company, "Acme");
    form.HandleChange(LicenseType, "Adobe");
    form.HandleChange(Message, "Hello");
    SampleDraftPasses(form.formData);
    var valid := form.HandleSubmit();
    afterSubmit := (form.isSubmitting, form.showSuccess);
    form.SubmissionResolves();
    afterResolve := (form.isSubmitting, form.showSuccess);
    form.ResetFires();
    afterReset := (form.isSubmitting, form.showSuccess);
    finalDraft, finalErrors := form.formData, form.errors;
  }
}
