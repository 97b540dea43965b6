/**
 * The page that verifies through the NPM build of the SDK: when the form is shown, how
 * the form's record becomes the SDK's CustomerInfo, the submit handler, and the toast
 * text for a failed start.
 */
module NpmPage {
  import opened Wrappers
  import opened Customer
  import Text
  import MessageRules
  import CustomerForm
  import NpmHook

  const CORS_TOAST: string := "Unable to connect to verification service due to network restrictions. Try using the Server API mode instead (main page)."
  const NETWORK_TOAST: string := "Network connection error. Please check your connection and try again."
  const TIMEOUT_TOAST: string := "Request timed out. Please try again."
  const AUTH_TOAST: string := "Authentication failed. Please check your API credentials in the configuration."
  const FORBIDDEN_TOAST: string := "Access denied. Please verify your API permissions."
  const NOT_FOUND_TOAST: string := "Verification service not found. Please check your API configuration."
  const SERVER_TOAST: string := "Verification service is temporarily unavailable. Please try again later."
  const DEFAULT_TOAST: string := "Something went wrong during verification. Please try again."
  const STARTED_TOAST: string := "Verification started successfully with NPM SDK!"

  /** The page's classifier, rule by rule in the order it tests them. */
  const PAGE_RULES: seq<MessageRules.Rule> := [
    MessageRules.Rule(["CORS", "Access-Control-Allow-Origin"], CORS_TOAST),
    MessageRules.Rule(["Failed to fetch", "Network connection error"], NETWORK_TOAST),
    MessageRules.Rule(["timeout", "timed out"], TIMEOUT_TOAST),
    MessageRules.Rule(["Authentication failed"], AUTH_TOAST),
    MessageRules.Rule(["Access denied"], FORBIDDEN_TOAST),
    MessageRules.Rule(["not found"], NOT_FOUND_TOAST),
    MessageRules.Rule(["temporarily unavailable"], SERVER_TOAST)]

  /**
   * `!isVerifying && state !== "completed" && state !== "failed"`: the form shows only in
   * the idle and verifying states, and always on an idle page that is not busy.
   */
  predicate ShowForm(isVerifying: bool, state: NpmHook.VerificationState): (b: bool)
    ensures b ==> state == NpmHook.Idle || state == NpmHook.Verifying
    ensures !isVerifying && state == NpmHook.Idle ==> b
  {
    !isVerifying && state != NpmHook.Completed && state != NpmHook.Failed
  }

  /** Under the hook's invariant (busy exactly while verifying) the form shows exactly in the idle state. */
  lemma ShowFormIffIdle(isVerifying: bool, state: NpmHook.VerificationState)
    requires isVerifying <==> state == NpmHook.Verifying
    ensures ShowForm(isVerifying, state) <==> state == NpmHook.Idle
  {
  }

  /** What the page shows when no rule matches: the message itself, or the default when it is empty. */
  function Fallback(errorMessage: string): (r: string)
    ensures r != ""
    ensures errorMessage != "" ==> r == errorMessage
  {
    if errorMessage == "" then DEFAULT_TOAST else errorMessage
  }

  /**
   * getErrorMessage, on the thrown Error's message (`error.message || ''`): never empty,
   * one of the rules' texts or the fallback, and the CORS text whenever the message
   * mentions CORS, whatever else it mentions.
   */
  function GetErrorMessage(errorMessage: string): (r: string)
    ensures r != ""
    ensures r in [CORS_TOAST, NETWORK_TOAST, TIMEOUT_TOAST, AUTH_TOAST, FORBIDDEN_TOAST, NOT_FOUND_TOAST,
      SERVER_TOAST, Fallback(errorMessage)]
    ensures Text.Contains(errorMessage, "CORS") ==> r == CORS_TOAST
  {
    if Text.Contains(errorMessage, "CORS") || Text.Contains(errorMessage, "Access-Control-Allow-Origin") then CORS_TOAST
    else if Text.Contains(errorMessage, "Failed to fetch") || Text.Contains(errorMessage, "Network connection error") then NETWORK_TOAST
    else if Text.Contains(errorMessage, "timeout") || Text.Contains(errorMessage, "timed out") then TIMEOUT_TOAST
    else if Text.Contains(errorMessage, "Authentication failed") then AUTH_TOAST
    else if Text.Contains(errorMessage, "Access denied") then FORBIDDEN_TOAST
    else if Text.Contains(errorMessage, "not found") then NOT_FOUND_TOAST
    else if Text.Contains(errorMessage, "temporarily unavailable") then SERVER_TOAST
    else Fallback(errorMessage)
  }

  /** Each of the page's rules matches exactly when the message contains one of its substrings. */
  lemma RuleMatches(m: string)
    ensures MessageRules.Matches(PAGE_RULES[0], m) <==> Text.Contains(m, "CORS") || Text.Contains(m, "Access-Control-Allow-Origin")
    ensures MessageRules.Matches(PAGE_RULES[1], m) <==> Text.Contains(m, "Failed to fetch") || Text.Contains(m, "Network connection error")
    ensures MessageRules.Matches(PAGE_RULES[2], m) <==> Text.Contains(m, "timeout") || Text.Contains(m, "timed out")
    ensures MessageRules.Matches(PAGE_RULES[3], m) <==> Text.Contains(m, "Authentication failed")
    ensures MessageRules.Matches(PAGE_RULES[4], m) <==> Text.Contains(m, "Access denied")
    ensures MessageRules.Matches(PAGE_RULES[5], m) <==> Text.Contains(m, "not found")
    ensures MessageRules.Matches(PAGE_RULES[6], m) <==> Text.Contains(m, "temporarily unavailable")
  {
    MessageRules.MatchesTwo("CORS", "Access-Control-Allow-Origin", CORS_TOAST, m);
    MessageRules.MatchesTwo("Failed to fetch", "Network connection error", NETWORK_TOAST, m);
    MessageRules.MatchesTwo("timeout", "timed out", TIMEOUT_TOAST, m);
    MessageRules.MatchesOne("Authentication failed", AUTH_TOAST, m);
    MessageRules.MatchesOne("Access denied", FORBIDDEN_TOAST, m);
    MessageRules.MatchesOne("not found", NOT_FOUND_TOAST, m);
    MessageRules.MatchesOne("temporarily unavailable", SERVER_TOAST, m);
  }

  /**
   * getErrorMessage is the page's first-match classification: the text of the first rule
   * whose substrings the message contains, else the message itself (the default text
   * when the message is empty).
   */
  lemma GetErrorMessageClassifies(m: string)
    ensures MessageRules.ClassifiedAs(PAGE_RULES, m, Fallback(m), GetErrorMessage(m))
  {
    if MatchesFront(m) {
      ClassifiesFront(m);
    } else {
      ClassifiesBack(m);
    }
  }

  /** One of the first four rules (connection, network, timeout, authentication) matches. */
  predicate MatchesFront(m: string) {
    || MessageRules.Matches(PAGE_RULES[0], m) || MessageRules.Matches(PAGE_RULES[1], m)
    || MessageRules.Matches(PAGE_RULES[2], m) || MessageRules.Matches(PAGE_RULES[3], m)
  }

  lemma ClassifiesFront(m: string)
    requires MatchesFront(m)
    ensures MessageRules.ClassifiedAs(PAGE_RULES, m, Fallback(m), GetErrorMessage(m))
  {
    RuleMatches(m);
    if MessageRules.Matches(PAGE_RULES[0], m) {
      MessageRules.ClassifiedAtFirstMatch(PAGE_RULES, m, Fallback(m), 0);
    } else if MessageRules.Matches(PAGE_RULES[1], m) {
      MessageRules.ClassifiedAtFirstMatch(PAGE_RULES, m, Fallback(m), 1);
    } else if MessageRules.Matches(PAGE_RULES[2], m) {
      MessageRules.ClassifiedAtFirstMatch(PAGE_RULES, m, Fallback(m), 2);
    } else {
      MessageRules.ClassifiedAtFirstMatch(PAGE_RULES, m, Fallback(m), 3);
    }
  }

  lemma ClassifiesBack(m: string)
    requires !MatchesFront(m)
    ensures MessageRules.ClassifiedAs(PAGE_RULES, m, Fallback(m), GetErrorMessage(m))
  {
    RuleMatches(m);
    if MessageRules.Matches(PAGE_RULES[4], m) {
      MessageRules.ClassifiedAtFirstMatch(PAGE_RULES, m, Fallback(m), 4);
    } else if MessageRules.Matches(PAGE_RULES[5], m) {
      MessageRules.ClassifiedAtFirstMatch(PAGE_RULES, m, Fallback(m), 5);
    } else if MessageRules.Matches(PAGE_RULES[6], m) {
      MessageRules.ClassifiedAtFirstMatch(PAGE_RULES, m, Fallback(m), 6);
    } else {
      MessageRules.ClassifiedAtNoMatch(PAGE_RULES, m, Fallback(m));
    }
  }

  /** getErrorMessage computes what the page's rule list classifies the message as. */
  lemma GetErrorMessageIsClassify(m: string)
    ensures GetErrorMessage(m) == MessageRules.Classify(PAGE_RULES, m, Fallback(m))
  {
    GetErrorMessageClassifies(m);
    MessageRules.ClassifiedAsIsClassify(PAGE_RULES, m, Fallback(m), GetErrorMessage(m));
  }

  /** `s || undefined`: an empty string becomes absent. */
  function OrUndefined(s: string): (r: Option<string>)
    ensures r == None <==> s == ""
    ensures r.Some? ==> r.value == s
  {
    if s == "" then None else Some(s)
  }

  /** The conversion in handleSubmit from the form's record to the SDK's CustomerInfo. */
  function FormToCustomerInfo(f: FormData): (r: CustomerInfo)
    ensures r.firstName == f.firstName && r.lastName == f.lastName
    ensures r.address.line1 == f.address.line1 && r.address.locality == f.address.locality
    ensures r.address.majorAdminDivision == f.address.majorAdminDivision && r.address.country == f.address.country
    ensures r.address.postalCode == f.address.postalCode && r.address.addressType == f.address.addressType
    ensures r.middleName == None <==> f.middleName == ""
    ensures r.email == None <==> f.email == ""
    ensures r.phone == None <==> f.phone == ""
    ensures r.address.line2 == None <==> f.address.line2 == ""
    ensures r.address.minorAdminDivision == None <==> f.address.minorAdminDivision == ""
  {
    CustomerInfo(f.firstName, f.lastName, OrUndefined(f.middleName), OrUndefined(f.email), OrUndefined(f.phone),
      CustomerAddress(f.address.line1, OrUndefined(f.address.line2), f.address.locality,
        OrUndefined(f.address.minorAdminDivision), f.address.majorAdminDivision, f.address.country,
        f.address.postalCode, f.address.addressType))
  }

  /** The reverse reading: an absent optional string shown as an empty field. */
  function CustomerInfoToForm(c: CustomerInfo): FormData {
    FormData(c.firstName, c.lastName, c.middleName.GetOr(""), c.email.GetOr(""), c.phone.GetOr(""),
      FormAddress(c.address.line1, c.address.line2.GetOr(""), c.address.locality,
        c.address.minorAdminDivision.GetOr(""), c.address.majorAdminDivision, c.address.country,
        c.address.postalCode, c.address.addressType, map[]), map[])
  }

  /** The conversion loses nothing but the fields the form record does not declare. */
  lemma ConversionRoundTrip(f: FormData)
    requires f.extra == map[] && f.address.extra == map[]
    ensures CustomerInfoToForm(FormToCustomerInfo(f)) == f
  {
  }

  /** A converted record never carries an empty optional string: each one is absent or non-empty. */
  lemma ConvertedOptionalsNonEmpty(f: FormData)
    ensures var c := FormToCustomerInfo(f);
      && (c.middleName.Some? ==> c.middleName.value != "")
      && (c.email.Some? ==> c.email.value != "")
      && (c.phone.Some? ==> c.phone.value != "")
      && (c.address.line2.Some? ==> c.address.line2.value != "")
      && (c.address.minorAdminDivision.Some? ==> c.address.minorAdminDivision.value != "")
  {
  }

  datatype ToastKind = Success | Error
  datatype Toast = Toast(message: string, kind: ToastKind)

  /**
   * handleSubmit. `form` is the customer form's state; `containerFound` and `started`
   * are passed on to the hook's initialisation. A form that fails validation gets exactly validateForm's errors and nothing else happens;
   * otherwise the errors are cleared, the converted record is handed to the hook, and the
   * toast reports the outcome.
   */
  method HandleSubmit(form: CustomerForm.FormState, validEmail: string -> bool, hook: NpmHook.NpmVerificationHook,
                      containerFound: bool, started: Result<nat, string>)
    returns (newForm: CustomerForm.FormState, toast: Option<Toast>)
    requires hook.Valid()
    modifies hook
    ensures hook.Valid()
    ensures newForm.formData == form.formData
    ensures !CustomerForm.FormValid(form.formData, validEmail) ==>
      newForm.errors == CustomerForm.FormErrors(form.formData, validEmail) && newForm.errors != map[]
      && toast == None && unchanged(hook)
    ensures CustomerForm.FormValid(form.formData, validEmail) ==>
      && newForm.errors == map[] && toast.Some?
      && (toast.value.kind == Success <==> containerFound && started.Ok?)
      && (toast.value.kind == Success ==> toast.value.message == STARTED_TOAST && hook.state == NpmHook.Verifying)
      && (toast.value.kind == Error ==> hook.state == NpmHook.Failed && hook.errorMessage.Some?
                                        && toast.value.message == GetErrorMessage(hook.errorMessage.value))
  {
    var errors := CustomerForm.ValidateForm(form.formData, validEmail);
    if errors != map[] {
      newForm := form.(errors := errors);
      toast := None;
      return;
    }
    newForm := form.(errors := map[]);
    var r := hook.InitializeWithCustomer(containerFound, started);
    match r {
      case Ok(_) =>
        toast := Some(Toast(STARTED_TOAST, Success));
      case Err(message) =>
        toast := Some(Toast(GetErrorMessage(message), Error));
    }
  }
}
