/**
 * The server action that starts a verification: the JSON body it posts (optional fields
 * omitted, the address renamed to snake_case, the phone normalised) and the envelope it
 * returns for each way the HTTP exchange can end.
 */
module VerifyAction {
  import opened Wrappers
  import opened JsValue
  import opened Customer
  import Text
  import Phone
  import AppConfig
  import ErrorHandling

  const WEBHOOK_URL: string := "https://vecu-idv.emulator_idvp.com"
  const VERIFY_PATH: string := "identity/verify/start"
  const DEFAULT_FAILURE: string := "Failed to start verification"
  const NETWORK_FAILURE: string := "Network error: Unable to connect to the verification service"
  const UNKNOWN_FAILURE: string := "Unknown error occurred"

  /** `...(s && { key: f(s) })` spread into an object: the key is added only when the string is set and non-empty. */
  function WithOptional(m: map<string, Value>, key: string, v: Option<string>, f: string -> string): (r: map<string, Value>)
    ensures r.Keys == if Present(v) then m.Keys + {key} else m.Keys
    ensures Present(v) ==> r[key] == Str(f(v.value))
    ensures forall k :: k in m && k != key ==> k in r && r[k] == m[k]
  {
    if Present(v) then m[key := Str(f(v.value))] else m
  }

  function Identity(s: string): string { s }

  /** The `address` object of the body, with the API's snake_case keys. */
  function AddressBody(a: CustomerAddress): Value {
    Obj(WithOptional(WithOptional(RequiredAddress(a), "line_2", a.line2, Identity),
                     "minor_admin_division", a.minorAdminDivision, Identity))
  }

  /** The keys the address object always has. */
  function RequiredAddress(a: CustomerAddress): map<string, Value> {
    map["line_1" := Str(a.line1), "locality" := Str(a.locality),
        "major_admin_division" := Str(a.majorAdminDivision), "country" := Str(a.country),
        "postal_code" := Str(a.postalCode), "type" := Str(a.addressType)]
  }

  /** A required key other than the two optional ones keeps its value in the address object. */
  lemma RequiredKeyKept(a: CustomerAddress, k: string)
    requires k in RequiredAddress(a) && k != "line_2" && k != "minor_admin_division"
    ensures Get(AddressBody(a), k) == RequiredAddress(a)[k]
  {
  }

  /** The `customerInfo` object of the body. */
  function CustomerBody(c: CustomerInfo): Value {
    Obj(WithOptional(WithOptional(WithOptional(RequiredCustomer(c), "middleName", c.middleName, Identity),
                                  "email", c.email, Identity),
                     "phone", c.phone, Phone.GetPhoneNumberForAPI))
  }

  /** The keys the customer object always has. */
  function RequiredCustomer(c: CustomerInfo): map<string, Value> {
    map["firstName" := Str(c.firstName), "lastName" := Str(c.lastName), "address" := AddressBody(c.address)]
  }

  /** A required key other than the three optional ones keeps its value in the customer object. */
  lemma RequiredCustomerKeyKept(c: CustomerInfo, k: string)
    requires k in RequiredCustomer(c) && k != "middleName" && k != "email" && k != "phone"
    ensures Get(CustomerBody(c), k) == RequiredCustomer(c)[k]
  {
  }

  /** The request body; `now` is the clock reading that makes the reference id. */
  function RequestBody(c: CustomerInfo, now: int): (r: Value)
    ensures r.Obj? && r.props.Keys == {"referenceId", "config", "customerInfo"}
    ensures Get(r, "referenceId") == Str(ReferenceId(now))
    ensures Get(r, "customerInfo") == CustomerBody(c)
  {
    Obj(map["referenceId" := Str(ReferenceId(now)),
            "config" := Obj(map["webhookUrl" := Str(WEBHOOK_URL)]),
            "customerInfo" := CustomerBody(c)])
  }

  const REFERENCE_PREFIX: string := "customer_"

  /**
   * `customer_${Date.now()}`: "customer_" and a numeral from which the clock reading is
   * read back, so ids made at different readings differ.
   */
  function ReferenceId(now: int): (id: string)
    ensures Text.StartsWith(id, REFERENCE_PREFIX)
    ensures Text.DecimalFloor(id[|REFERENCE_PREFIX|..]) == Some(now)
  {
    var id := REFERENCE_PREFIX + Text.IntToString(now);
    Text.PrefixedNumeral(REFERENCE_PREFIX, now, id);
    id
  }

  /** Two bodies built at different clock readings have different reference ids. */
  lemma ReferenceIdsDistinct(c1: CustomerInfo, c2: CustomerInfo, now1: int, now2: int)
    requires now1 != now2
    ensures Get(RequestBody(c1, now1), "referenceId") != Get(RequestBody(c2, now2), "referenceId")
  {
  }

  /** `opt && ...`: the optional string is set and non-empty. */
  predicate Present(v: Option<string>) {
    v.Some? && v.value != ""
  }

  /** The body has exactly three keys: the reference id, the fixed webhook configuration and the customer. */
  lemma RequestBodyFixedParts(c: CustomerInfo, now: int)
    ensures var body := RequestBody(c, now);
      && body.props.Keys == {"referenceId", "config", "customerInfo"}
      && Get(body, "referenceId") == Str(ReferenceId(now))
      && Get(Get(body, "config"), "webhookUrl") == Str(WEBHOOK_URL)
      && Get(body, "customerInfo") == CustomerBody(c)
  {
    var body := RequestBody(c, now);
    assert Get(body, "config") == Obj(map["webhookUrl" := Str(WEBHOOK_URL)]);
  }

  /** Both names are copied unchanged, and the address object is the renamed address. */
  lemma CustomerBodyRequiredFields(c: CustomerInfo)
    ensures var info := CustomerBody(c);
      && Get(info, "firstName") == Str(c.firstName)
      && Get(info, "lastName") == Str(c.lastName)
      && Get(info, "address") == AddressBody(c.address)
  {
    RequiredCustomerKeyKept(c, "firstName");
    RequiredCustomerKeyKept(c, "lastName");
    RequiredCustomerKeyKept(c, "address");
  }

  /**
   * middleName, email and phone appear exactly when set and non-empty; the phone is
   * sent normalised for the API.
   */
  lemma CustomerBodyOptionalFields(c: CustomerInfo)
    ensures var info := CustomerBody(c);
      && info.props.Keys == {"firstName", "lastName", "address"}
           + (if Present(c.middleName) then {"middleName"} else {})
           + (if Present(c.email) then {"email"} else {})
           + (if Present(c.phone) then {"phone"} else {})
      && (Present(c.middleName) ==> Get(info, "middleName") == Str(c.middleName.value))
      && (Present(c.email) ==> Get(info, "email") == Str(c.email.value))
      && (Present(c.phone) ==> Get(info, "phone") == Str(Phone.GetPhoneNumberForAPI(c.phone.value)))
  {
  }

  /** The address keeps six snake_case keys always, and line_2 and minor_admin_division only when set and non-empty. */
  lemma AddressBodyKeys(a: CustomerAddress)
    ensures AddressBody(a).props.Keys ==
      {"line_1", "locality", "major_admin_division", "country", "postal_code", "type"}
      + (if Present(a.line2) then {"line_2"} else {})
      + (if Present(a.minorAdminDivision) then {"minor_admin_division"} else {})
  {
  }

  /** The required address values are copied unchanged under their snake_case keys: the street, city and state ... */
  lemma AddressBodyValues(a: CustomerAddress)
    ensures var addr := AddressBody(a);
      && Get(addr, "line_1") == Str(a.line1)
      && Get(addr, "locality") == Str(a.locality)
      && Get(addr, "major_admin_division") == Str(a.majorAdminDivision)
  {
    assert "line_1"[5] != "line_2"[5];
    RequiredKeyKept(a, "line_1");
    RequiredKeyKept(a, "locality");
    assert "major_admin_division"[1] != "minor_admin_division"[1];
    RequiredKeyKept(a, "major_admin_division");
  }

  /** ... and so are the country, postal code and address type. */
  lemma AddressBodyValuesRest(a: CustomerAddress)
    ensures var addr := AddressBody(a);
      && Get(addr, "country") == Str(a.country)
      && Get(addr, "postal_code") == Str(a.postalCode)
      && Get(addr, "type") == Str(a.addressType)
  {
  }

  /** line_2 and minor_admin_division, when sent, carry the form's values. */
  lemma AddressBodyOptionalValues(a: CustomerAddress)
    ensures var addr := AddressBody(a);
      && (Present(a.line2) ==> Get(addr, "line_2") == Str(a.line2.value))
      && (Present(a.minorAdminDivision) ==> Get(addr, "minor_admin_division") == Str(a.minorAdminDivision.value))
  {
  }

  /** The HTTP response fetch resolves with; `json` is what `response.json()` settles to. */
  datatype HttpResponse = HttpResponse(ok: bool, status: int, statusText: string, json: Result<Value, ErrorHandling.Thrown>)

  /** VerificationResponse. `error` is a JavaScript value: the API's `message` need not be a string. */
  datatype VerificationResponse = VerificationResponse(
    success: bool, data: Option<Value>, error: Option<Value>, statusCode: Option<int>)

  /** The outer catch: the network message for a failed fetch, else the Error's message. */
  function CaughtMessage(e: ErrorHandling.Thrown): (r: string)
    ensures ErrorHandling.IsNetworkError(e) ==> r == NETWORK_FAILURE
    ensures !ErrorHandling.IsNetworkError(e) && e.IsError() ==> r == e.message
    ensures !e.IsError() ==> r == UNKNOWN_FAILURE
  {
    if ErrorHandling.IsNetworkError(e) then NETWORK_FAILURE
    else if e.IsError() then e.message
    else UNKNOWN_FAILURE
  }

  /** The message of a non-ok response whose body parsed as `data` (not null or undefined). */
  function ApiErrorMessage(data: Value): (r: Value)
    requires !IsNullish(data)
    ensures Truthy(r)
    ensures Truthy(Get(data, "message")) ==> r == Get(data, "message")
    ensures !Truthy(Get(data, "message")) && Truthy(Get(data, "error")) ==> r == Get(data, "error")
    ensures !Truthy(Get(data, "message")) && !Truthy(Get(data, "error")) ==> r == Str(DEFAULT_FAILURE)
  {
    Or(Or(Get(data, "message"), Get(data, "error")), Str(DEFAULT_FAILURE))
  }

  /** The message when the error body is unusable: `${status} ${statusText}`. */
  function StatusLine(r: HttpResponse): string {
    Text.IntToString(r.status) + " " + r.statusText
  }

  /**
   * startVerification, from the moment fetch settles. The URL and body it posts are
   * returned alongside the envelope.
   */
  method StartVerification(cfg: AppConfig.Config, request: CustomerInfo, now: int,
                           fetched: Result<HttpResponse, ErrorHandling.Thrown>)
    returns (url: string, body: Value, response: VerificationResponse)
    ensures url == cfg.apiBaseUrl + "/" + VERIFY_PATH
    ensures body == RequestBody(request, now)
    // success exactly when the response is ok and its body parsed
    ensures response.success <==> fetched.Ok? && fetched.value.ok && fetched.value.json.Ok?
    ensures response.success ==>
      response.data == Some(fetched.value.json.value) && response.error == None
    ensures !response.success ==> response.data == None && response.error.Some?
    // the status code is reported whenever a response was read to the end
    ensures fetched.Ok? && (!fetched.value.ok || fetched.value.json.Ok?) ==>
      response.statusCode == Some(fetched.value.status)
    ensures fetched.Ok? && !fetched.value.ok && fetched.value.json.Ok? && !IsNullish(fetched.value.json.value) ==>
      response.error == Some(ApiErrorMessage(fetched.value.json.value))
    ensures fetched.Ok? && !fetched.value.ok && (fetched.value.json.Err? || IsNullish(fetched.value.json.value)) ==>
      response.error == Some(Str(StatusLine(fetched.value)))
    // a thrown fetch, or an ok body that is not JSON, ends in the catch: no status code
    ensures fetched.Err? ==>
      response.error == Some(Str(CaughtMessage(fetched.error))) && response.statusCode == None
    // a fetch that fails with a TypeError about "fetch" is the network failure envelope
    ensures fetched.Err? && fetched.error.TypeErr? && Text.Contains(fetched.error.message, "fetch") ==>
      response == VerificationResponse(false, None, Some(Str(NETWORK_FAILURE)), None)
    ensures fetched.Ok? && fetched.value.ok && fetched.value.json.Err? ==>
      response.error == Some(Str(CaughtMessage(fetched.value.json.error))) && response.statusCode == None
  {
    body := RequestBody(request, now);
    url := AppConfig.GetApiEndpoint(cfg, VERIFY_PATH);
    assert VERIFY_PATH[0] == 'i';
    match fetched {
      case Err(e) =>
        response := VerificationResponse(false, None, Some(Str(CaughtMessage(e))), None);
      case Ok(r) =>
        if r.ok {
          match r.json {
            case Ok(data) =>
              response := VerificationResponse(true, Some(data), None, Some(r.status));
            case Err(e) =>
              response := VerificationResponse(false, None, Some(Str(CaughtMessage(e))), None);
          }
        } else {
          var errorMessage: Value := Str(DEFAULT_FAILURE);
          var errorData: Value := Null;
          match r.json {
            case Ok(data) =>
              errorData := data;
              if IsNullish(errorData) {
                // reading `.message` of null throws; the inner catch takes over
                errorMessage := Str(StatusLine(r));
              } else {
                errorMessage := Or(Or(Get(errorData, "message"), Get(errorData, "error")), errorMessage);
              }
            case Err(_) =>
              errorMessage := Str(StatusLine(r));
          }
          response := VerificationResponse(false, None, Some(errorMessage), Some(r.status));
        }
    }
  }
}
