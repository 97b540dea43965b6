/**
 * The customer form's logic: the validator run on submit, the title-casing of the city,
 * the change handlers that update one field of the record, and the reset.
 */
module CustomerForm {
  import opened Wrappers
  import opened Customer
  import Text
  import Phone

  /** The validation errors shown next to the fields, by field key. */
  type ValidationErrors = map<string, string>

  const FIRST_NAME_KEY: string := "firstName"
  const LAST_NAME_KEY: string := "lastName"
  const EMAIL_KEY: string := "email"
  const PHONE_KEY: string := "phone"
  const LINE1_KEY: string := "address.line1"
  const LOCALITY_KEY: string := "address.locality"
  const STATE_KEY: string := "address.majorAdminDivision"
  const POSTAL_CODE_KEY: string := "address.postalCode"

  /** The only keys validateForm can report. */
  const ERROR_KEYS: set<string> := {FIRST_NAME_KEY, LAST_NAME_KEY, EMAIL_KEY, PHONE_KEY,
    LINE1_KEY, LOCALITY_KEY, STATE_KEY, POSTAL_CODE_KEY}

  const FIRST_NAME_REQUIRED: string := "First name is required"
  const LAST_NAME_REQUIRED: string := "Last name is required"
  const EMAIL_REQUIRED: string := "Email is required"
  const EMAIL_INVALID: string := "Please enter a valid email address"
  const PHONE_REQUIRED: string := "Phone is required"
  const PHONE_INVALID: string := "Please enter a valid 10-digit US phone number"
  const LINE1_REQUIRED: string := "Address line 1 is required"
  const CITY_REQUIRED: string := "City is required"
  const STATE_REQUIRED: string := "State is required"
  const POSTAL_CODE_REQUIRED: string := "Postal code is required"

  /**
   * Everything validateForm asks of the record. The email test is the regular
   * expression validateEmail, passed in as `validEmail`.
   */
  predicate FormValid(f: FormData, validEmail: string -> bool) {
    && !Text.IsBlank(f.firstName) && !Text.IsBlank(f.lastName)
    && f.email != "" && validEmail(f.email)
    && f.phone != "" && Phone.ValidatePhoneNumber(f.phone)
    && !Text.IsBlank(f.address.line1) && !Text.IsBlank(f.address.locality)
    && f.address.majorAdminDivision != "" && !Text.IsBlank(f.address.postalCode)
  }

  /**
   * The message validateForm reports under `key`, if any: the check each key stands for,
   * read field by field. A key outside the eight it reports never has one.
   */
  function FieldError(f: FormData, validEmail: string -> bool, key: string): Option<string> {
    if key == FIRST_NAME_KEY then (if Text.IsBlank(f.firstName) then Some(FIRST_NAME_REQUIRED) else None)
    else if key == LAST_NAME_KEY then (if Text.IsBlank(f.lastName) then Some(LAST_NAME_REQUIRED) else None)
    else if key == EMAIL_KEY then
      (if f.email == "" then Some(EMAIL_REQUIRED) else if !validEmail(f.email) then Some(EMAIL_INVALID) else None)
    else if key == PHONE_KEY then
      (if f.phone == "" then Some(PHONE_REQUIRED)
       else if !Phone.ValidatePhoneNumber(f.phone) then Some(PHONE_INVALID) else None)
    else if key == LINE1_KEY then (if Text.IsBlank(f.address.line1) then Some(LINE1_REQUIRED) else None)
    else if key == LOCALITY_KEY then (if Text.IsBlank(f.address.locality) then Some(CITY_REQUIRED) else None)
    else if key == STATE_KEY then (if f.address.majorAdminDivision == "" then Some(STATE_REQUIRED) else None)
    else if key == POSTAL_CODE_KEY then (if Text.IsBlank(f.address.postalCode) then Some(POSTAL_CODE_REQUIRED) else None)
    else None
  }

  /** The errors validateForm returns: each key with a message, mapped to it. */
  function FormErrors(f: FormData, validEmail: string -> bool): (r: ValidationErrors)
    ensures r.Keys <= ERROR_KEYS
    ensures forall k :: k in r <==> FieldError(f, validEmail, k).Some?
  {
    map k | k in ERROR_KEYS && FieldError(f, validEmail, k).Some? :: FieldError(f, validEmail, k).value
  }

  /** validateForm reports nothing exactly when the record passes every check. */
  lemma FormErrorsEmptyIff(f: FormData, validEmail: string -> bool)
    ensures FormErrors(f, validEmail) == map[] <==> FormValid(f, validEmail)
  {
    var r := FormErrors(f, validEmail);
    if r == map[] {
      assert FieldError(f, validEmail, FIRST_NAME_KEY).None? && FieldError(f, validEmail, LAST_NAME_KEY).None?;
      assert FieldError(f, validEmail, EMAIL_KEY).None? && FieldError(f, validEmail, PHONE_KEY).None?;
      assert FieldError(f, validEmail, LINE1_KEY).None? && FieldError(f, validEmail, LOCALITY_KEY).None?;
      assert FieldError(f, validEmail, STATE_KEY).None? && FieldError(f, validEmail, POSTAL_CODE_KEY).None?;
    } else {
      var k :| k in r;
      assert FieldError(f, validEmail, k).Some?;
    }
  }

  /** `errors[key]`, absent as None. */
  function Lookup(errors: ValidationErrors, key: string): Option<string> {
    if key in errors then Some(errors[key]) else None
  }

  /** Errors over the eight keys that agree with FieldError on each of them are FormErrors. */
  lemma FormErrorsByKey(f: FormData, validEmail: string -> bool, errors: ValidationErrors)
    requires errors.Keys <= ERROR_KEYS
    requires Lookup(errors, FIRST_NAME_KEY) == FieldError(f, validEmail, FIRST_NAME_KEY)
    requires Lookup(errors, LAST_NAME_KEY) == FieldError(f, validEmail, LAST_NAME_KEY)
    requires Lookup(errors, EMAIL_KEY) == FieldError(f, validEmail, EMAIL_KEY)
    requires Lookup(errors, PHONE_KEY) == FieldError(f, validEmail, PHONE_KEY)
    requires Lookup(errors, LINE1_KEY) == FieldError(f, validEmail, LINE1_KEY)
    requires Lookup(errors, LOCALITY_KEY) == FieldError(f, validEmail, LOCALITY_KEY)
    requires Lookup(errors, STATE_KEY) == FieldError(f, validEmail, STATE_KEY)
    requires Lookup(errors, POSTAL_CODE_KEY) == FieldError(f, validEmail, POSTAL_CODE_KEY)
    ensures errors == FormErrors(f, validEmail)
  {
    var r := FormErrors(f, validEmail);
    forall k | k in ERROR_KEYS
      ensures Lookup(errors, k) == FieldError(f, validEmail, k)
    {
    }
    assert errors.Keys == r.Keys;
    forall k | k in errors
      ensures errors[k] == r[k]
    {
      assert Lookup(errors, k) == FieldError(f, validEmail, k);
    }
  }

  /**
   * validateForm: one error per failing check, under the field's key. Email and phone
   * report "required" when empty and "invalid" only when filled in; middleName, line2,
   * minorAdminDivision and country are never checked.
   */
  method ValidateForm(f: FormData, validEmail: string -> bool) returns (errors: ValidationErrors)
    ensures errors == FormErrors(f, validEmail)
    ensures errors.Keys <= ERROR_KEYS
    ensures errors == map[] <==> FormValid(f, validEmail)
    ensures FIRST_NAME_KEY in errors <==> Text.IsBlank(f.firstName)
    ensures LAST_NAME_KEY in errors <==> Text.IsBlank(f.lastName)
    ensures EMAIL_KEY in errors <==> f.email == "" || !validEmail(f.email)
    ensures PHONE_KEY in errors <==> f.phone == "" || !Phone.ValidatePhoneNumber(f.phone)
    ensures LINE1_KEY in errors <==> Text.IsBlank(f.address.line1)
    ensures LOCALITY_KEY in errors <==> Text.IsBlank(f.address.locality)
    ensures STATE_KEY in errors <==> f.address.majorAdminDivision == ""
    ensures POSTAL_CODE_KEY in errors <==> Text.IsBlank(f.address.postalCode)
    ensures FIRST_NAME_KEY in errors ==> errors[FIRST_NAME_KEY] == FIRST_NAME_REQUIRED
    ensures LAST_NAME_KEY in errors ==> errors[LAST_NAME_KEY] == LAST_NAME_REQUIRED
    ensures EMAIL_KEY in errors ==> errors[EMAIL_KEY] == (if f.email == "" then EMAIL_REQUIRED else EMAIL_INVALID)
    ensures PHONE_KEY in errors ==> errors[PHONE_KEY] == (if f.phone == "" then PHONE_REQUIRED else PHONE_INVALID)
    ensures LINE1_KEY in errors ==> errors[LINE1_KEY] == LINE1_REQUIRED
    ensures LOCALITY_KEY in errors ==> errors[LOCALITY_KEY] == CITY_REQUIRED
    ensures STATE_KEY in errors ==> errors[STATE_KEY] == STATE_REQUIRED
    ensures POSTAL_CODE_KEY in errors ==> errors[POSTAL_CODE_KEY] == POSTAL_CODE_REQUIRED
  {
    errors := ValidatePersonalFields(f, validEmail);
    errors := ValidateAddressFields(f.address, errors);
    FormErrorsByKey(f, validEmail, errors);
    if errors == map[] {
      assert FIRST_NAME_KEY !in errors && LAST_NAME_KEY !in errors && EMAIL_KEY !in errors && PHONE_KEY !in errors;
      assert LINE1_KEY !in errors && LOCALITY_KEY !in errors && STATE_KEY !in errors && POSTAL_CODE_KEY !in errors;
    }
  }

  const PERSONAL_KEYS: set<string> := {FIRST_NAME_KEY, LAST_NAME_KEY, EMAIL_KEY, PHONE_KEY}
  const ADDRESS_KEYS: set<string> := {LINE1_KEY, LOCALITY_KEY, STATE_KEY, POSTAL_CODE_KEY}

  /** The first half of validateForm: the name, email and phone checks. */
  method ValidatePersonalFields(f: FormData, validEmail: string -> bool) returns (errors: ValidationErrors)
    ensures errors.Keys <= PERSONAL_KEYS
    ensures FIRST_NAME_KEY in errors <==> Text.IsBlank(f.firstName)
    ensures LAST_NAME_KEY in errors <==> Text.IsBlank(f.lastName)
    ensures EMAIL_KEY in errors <==> f.email == "" || !validEmail(f.email)
    ensures PHONE_KEY in errors <==> f.phone == "" || !Phone.ValidatePhoneNumber(f.phone)
    ensures FIRST_NAME_KEY in errors ==> errors[FIRST_NAME_KEY] == FIRST_NAME_REQUIRED
    ensures LAST_NAME_KEY in errors ==> errors[LAST_NAME_KEY] == LAST_NAME_REQUIRED
    ensures EMAIL_KEY in errors ==> errors[EMAIL_KEY] == (if f.email == "" then EMAIL_REQUIRED else EMAIL_INVALID)
    ensures PHONE_KEY in errors ==> errors[PHONE_KEY] == (if f.phone == "" then PHONE_REQUIRED else PHONE_INVALID)
  {
    errors := map[];
    if Text.IsBlank(f.firstName) {
      errors := errors[FIRST_NAME_KEY := FIRST_NAME_REQUIRED];
    }
    if Text.IsBlank(f.lastName) {
      errors := errors[LAST_NAME_KEY := LAST_NAME_REQUIRED];
    }
    if f.email == "" {
      errors := errors[EMAIL_KEY := EMAIL_REQUIRED];
    } else if !validEmail(f.email) {
      errors := errors[EMAIL_KEY := EMAIL_INVALID];
    }
    if f.phone == "" {
      errors := errors[PHONE_KEY := PHONE_REQUIRED];
    } else if !Phone.ValidatePhoneNumber(f.phone) {
      errors := errors[PHONE_KEY := PHONE_INVALID];
    }
  }

  /** The second half of validateForm: the address checks, added to the errors so far. */
  method ValidateAddressFields(a: FormAddress, errors0: ValidationErrors) returns (errors: ValidationErrors)
    requires errors0.Keys <= PERSONAL_KEYS
    ensures errors.Keys <= errors0.Keys + ADDRESS_KEYS
    ensures forall k :: k in PERSONAL_KEYS ==> (k in errors <==> k in errors0)
    ensures forall k :: k in errors0 ==> k in errors && errors[k] == errors0[k]
    ensures LINE1_KEY in errors <==> Text.IsBlank(a.line1)
    ensures LOCALITY_KEY in errors <==> Text.IsBlank(a.locality)
    ensures STATE_KEY in errors <==> a.majorAdminDivision == ""
    ensures POSTAL_CODE_KEY in errors <==> Text.IsBlank(a.postalCode)
    ensures LINE1_KEY in errors ==> errors[LINE1_KEY] == LINE1_REQUIRED
    ensures LOCALITY_KEY in errors ==> errors[LOCALITY_KEY] == CITY_REQUIRED
    ensures STATE_KEY in errors ==> errors[STATE_KEY] == STATE_REQUIRED
    ensures POSTAL_CODE_KEY in errors ==> errors[POSTAL_CODE_KEY] == POSTAL_CODE_REQUIRED
  {
    errors := errors0;
    if Text.IsBlank(a.line1) {
      errors := errors[LINE1_KEY := LINE1_REQUIRED];
    }
    if Text.IsBlank(a.locality) {
      errors := errors[LOCALITY_KEY := CITY_REQUIRED];
    }
    if a.majorAdminDivision == "" {
      errors := errors[STATE_KEY := STATE_REQUIRED];
    }
    if Text.IsBlank(a.postalCode) {
      errors := errors[POSTAL_CODE_KEY := POSTAL_CODE_REQUIRED];
    }
  }

  // ---- Title-casing of the city -------------------------------------------------

  /** `s.split(' ')`: the pieces between spaces, at least one, possibly empty. */
  function Split(s: string): (r: seq<string>)
    ensures |r| >= 1
  {
    if s == [] then [[]]
    else
      var rest := Split(s[1..]);
      if s[0] == ' ' then [[]] + rest else [[s[0]] + rest[0]] + rest[1..]
  }

  /** `words.join(' ')`. */
  function Join(words: seq<string>): string {
    if |words| == 0 then []
    else if |words| == 1 then words[0]
    else words[0] + " " + Join(words[1..])
  }

  /** One word: empty stays empty, else its first character upper-cased and the rest lower-cased. */
  function TitleWord(w: string): string {
    if |w| == 0 then w else [Text.UpperChar(w[0])] + Text.Lower(w[1..])
  }

  function TitleWords(words: seq<string>): (r: seq<string>)
    ensures |r| == |words|
  {
    seq(|words|, i requires 0 <= i < |words| => TitleWord(words[i]))
  }

  /**
   * The locality's processed value: split on spaces, title-case each word, join. The
   * result is as long as the input and has its spaces exactly where the input has them.
   */
  function TitleCase(s: string): (r: string)
    ensures |r| == |s|
    ensures forall i :: 0 <= i < |s| ==> (r[i] == ' ' <==> s[i] == ' ')
  {
    TitleCaseSplit(s);
    Join(TitleWords(Split(s)))
  }

  /** Character `i` starts a word: it follows a space, or it is the first (when `atStart`). */
  predicate StartsWord(s: string, i: int, atStart: bool)
    requires 0 <= i < |s|
  {
    if i == 0 then atStart else s[i - 1] == ' '
  }

  /**
   * The characterisation of title-casing, character by character: spaces stay, a word's
   * first character is upper-cased and every other one lower-cased.
   */
  function TitleCaseChars(s: string, atStart: bool): (r: string)
    ensures |r| == |s|
  {
    seq(|s|, i requires 0 <= i < |s| =>
      if s[i] == ' ' then ' '
      else if StartsWord(s, i, atStart) then Text.UpperChar(s[i])
      else Text.LowerChar(s[i]))
  }

  lemma JoinConsChars(c: string, w: string, rest: seq<string>)
    ensures Join([c + w] + rest) == c + Join([w] + rest)
  {
    if |rest| > 0 {
      assert ([c + w] + rest)[1..] == rest;
      assert ([w] + rest)[1..] == rest;
    }
  }

  lemma JoinEmptyFirst(rest: seq<string>)
    requires |rest| >= 1
    ensures Join([[]] + rest) == " " + Join(rest)
  {
    assert ([[]] + rest)[1..] == rest;
  }

  lemma {:induction false} TitleCaseCharsStep(s: string, atStart: bool)
    requires s != []
    ensures TitleCaseChars(s, atStart) ==
      [if s[0] == ' ' then ' ' else if atStart then Text.UpperChar(s[0]) else Text.LowerChar(s[0])]
      + TitleCaseChars(s[1..], s[0] == ' ')
  {
  }

  /** Both readings of title-casing hold for `s` (the second for a piece inside a word). */
  predicate SplitAgrees(s: string) {
    && Join(TitleWords(Split(s))) == TitleCaseChars(s, true)
    && Join([Text.Lower(Split(s)[0])] + TitleWords(Split(s)[1..])) == TitleCaseChars(s, false)
  }

  lemma SplitAgreesSpace(s: string)
    requires s != [] && s[0] == ' ' && SplitAgrees(s[1..])
    ensures SplitAgrees(s)
  {
    var rest := Split(s[1..]);
    TitleCaseCharsStep(s, true);
    TitleCaseCharsStep(s, false);
    assert Split(s) == [[]] + rest;
    assert TitleWords(Split(s)) == [[]] + TitleWords(rest);
    JoinEmptyFirst(TitleWords(rest));
    assert Text.Lower(Split(s)[0]) == [];
    assert Split(s)[1..] == rest;
  }

  lemma SplitAgreesLetter(s: string)
    requires s != [] && s[0] != ' ' && SplitAgrees(s[1..])
    ensures SplitAgrees(s)
  {
    SplitAgreesLetterStart(s);
    SplitAgreesLetterInside(s);
  }

  /** A piece starting with a letter extends the first word of the rest. */
  lemma SplitLetter(s: string)
    requires s != [] && s[0] != ' '
    ensures Split(s) == [[s[0]] + Split(s[1..])[0]] + Split(s[1..])[1..]
    ensures TitleWords(Split(s)) == [TitleWord([s[0]] + Split(s[1..])[0])] + TitleWords(Split(s[1..])[1..])
    ensures TitleWords(Split(s[1..])) == [TitleWord(Split(s[1..])[0])] + TitleWords(Split(s[1..])[1..])
    ensures ([s[0]] + Split(s[1..])[0])[1..] == Split(s[1..])[0]
  {
    var rest := Split(s[1..]);
    var first := [s[0]] + rest[0];
    assert Split(s) == [first] + rest[1..];
    TitleWordsCons(first, rest[1..]);
    assert rest == [rest[0]] + rest[1..];
    TitleWordsCons(rest[0], rest[1..]);
  }

  /** Title-casing the words of `[w] + ws` title-cases `w`, then the words of `ws`. */
  lemma TitleWordsCons(w: string, ws: seq<string>)
    ensures TitleWords([w] + ws) == [TitleWord(w)] + TitleWords(ws)
  {
    var l := TitleWords([w] + ws);
    var r := [TitleWord(w)] + TitleWords(ws);
    forall i | 0 <= i < |l|
      ensures l[i] == r[i]
    {
      if i > 0 {
        assert ([w] + ws)[i] == ws[i - 1];
      }
    }
  }

  lemma SplitAgreesLetterStart(s: string)
    requires s != [] && s[0] != ' ' && SplitAgrees(s[1..])
    ensures Join(TitleWords(Split(s))) == TitleCaseChars(s, true)
  {
    var rest := Split(s[1..]);
    TitleCaseCharsStep(s, true);
    SplitLetter(s);
    JoinConsChars([Text.UpperChar(s[0])], Text.Lower(rest[0]), TitleWords(rest[1..]));
  }

  lemma SplitAgreesLetterInside(s: string)
    requires s != [] && s[0] != ' ' && SplitAgrees(s[1..])
    ensures Join([Text.Lower(Split(s)[0])] + TitleWords(Split(s)[1..])) == TitleCaseChars(s, false)
  {
    var rest := Split(s[1..]);
    TitleCaseCharsStep(s, false);
    SplitLetter(s);
    JoinConsChars([Text.LowerChar(s[0])], Text.Lower(rest[0]), TitleWords(rest[1..]));
    assert Split(s)[1..] == rest[1..];
  }

  /**
   * Split, map and join agree with the character-by-character description, both for a
   * piece at the start of a word (title-cased) and for one inside a word (lower-cased).
   */
  lemma {:induction false} TitleCaseSplit(s: string)
    ensures SplitAgrees(s)
    decreases |s|
  {
    if s == [] {
      assert TitleWords([[]]) == [[]];
      assert Text.Lower([]) == [];
    } else {
      TitleCaseSplit(s[1..]);
      if s[0] == ' ' {
        SplitAgreesSpace(s);
      } else {
        SplitAgreesLetter(s);
      }
    }
  }

  /** Title-casing is the character-by-character description. */
  lemma TitleCaseIsChars(s: string)
    ensures TitleCase(s) == TitleCaseChars(s, true)
  {
    TitleCaseSplit(s);
  }

  /**
   * Title-casing keeps the length and the spaces, upper-cases the first character of
   * every word, lower-cases the others, and a second application changes nothing.
   */
  lemma TitleCaseProperties(s: string)
    ensures |TitleCase(s)| == |s|
    ensures forall i :: 0 <= i < |s| ==> (TitleCase(s)[i] == ' ' <==> s[i] == ' ')
    ensures forall i :: 0 <= i < |s| && s[i] != ' ' && StartsWord(s, i, true) ==>
      TitleCase(s)[i] == Text.UpperChar(s[i])
    ensures forall i :: 0 <= i < |s| && s[i] != ' ' && !StartsWord(s, i, true) ==>
      TitleCase(s)[i] == Text.LowerChar(s[i])
    ensures TitleCase(TitleCase(s)) == TitleCase(s)
  {
    TitleCaseIsChars(s);
    var t := TitleCase(s);
    TitleCaseIsChars(t);
    forall i | 0 <= i < |s|
      ensures t[i] == ' ' <==> s[i] == ' '
    {
    }
    forall i | 0 <= i < |s|
      ensures TitleCaseChars(t, true)[i] == t[i]
    {
      if i > 0 {
        assert t[i - 1] == ' ' <==> s[i - 1] == ' ';
      }
    }
  }

  // ---- Change handlers ------------------------------------------------------------

  const ADDRESS_PREFIX: string := "address."

  /** `s.split('.')[0]`: the part of `s` before its first dot. */
  function BeforeDot(s: string): (r: string)
    ensures |r| <= |s| && r == s[..|r|]
    ensures forall i :: 0 <= i < |r| ==> r[i] != '.'
    ensures |r| < |s| ==> s[|r|] == '.'
  {
    if s == [] || s[0] == '.' then [] else [s[0]] + BeforeDot(s[1..])
  }

  /** `name.split('.')[1]` for a name starting with "address.". */
  function AddressFieldName(name: string): string
    requires Text.StartsWith(name, ADDRESS_PREFIX)
  {
    BeforeDot(name[|ADDRESS_PREFIX|..])
  }

  /** A dot-free field name is read back from "address." + field. */
  lemma AddressFieldNameOf(field: string)
    requires forall i :: 0 <= i < |field| ==> field[i] != '.'
    ensures Text.StartsWith(ADDRESS_PREFIX + field, ADDRESS_PREFIX)
    ensures AddressFieldName(ADDRESS_PREFIX + field) == field
  {
    var name := ADDRESS_PREFIX + field;
    assert name[|ADDRESS_PREFIX|..] == field;
    assert name[..|ADDRESS_PREFIX|] == ADDRESS_PREFIX;
  }

  /** The value of an address field by name, declared or added. */
  function AddressField(a: FormAddress, field: string): Option<string> {
    match field
    case "line1" => Some(a.line1)
    case "line2" => Some(a.line2)
    case "locality" => Some(a.locality)
    case "minorAdminDivision" => Some(a.minorAdminDivision)
    case "majorAdminDivision" => Some(a.majorAdminDivision)
    case "country" => Some(a.country)
    case "postalCode" => Some(a.postalCode)
    case "type" => Some(a.addressType)
    case _ => if field in a.extra then Some(a.extra[field]) else None
  }

  /** `{ ...address, [field]: value }`. */
  function SetAddressField(a: FormAddress, field: string, value: string): (r: FormAddress)
    ensures AddressField(r, field) == Some(value)
    ensures forall g :: g != field ==> AddressField(r, g) == AddressField(a, g)
  {
    match field
    case "line1" => a.(line1 := value)
    case "line2" => a.(line2 := value)
    case "locality" => a.(locality := value)
    case "minorAdminDivision" => a.(minorAdminDivision := value)
    case "majorAdminDivision" => a.(majorAdminDivision := value)
    case "country" => a.(country := value)
    case "postalCode" => a.(postalCode := value)
    case "type" => a.(addressType := value)
    case _ => a.(extra := a.extra[field := value])
  }

  /** The value of a top-level string field by name, declared or added. */
  function TopField(f: FormData, name: string): Option<string> {
    match name
    case "firstName" => Some(f.firstName)
    case "lastName" => Some(f.lastName)
    case "middleName" => Some(f.middleName)
    case "email" => Some(f.email)
    case "phone" => Some(f.phone)
    case _ => if name in f.extra then Some(f.extra[name]) else None
  }

  /** `{ ...formData, [name]: value }` for a name other than "address". */
  function SetTopField(f: FormData, name: string, value: string): (r: FormData)
    requires name != "address"
    ensures TopField(r, name) == Some(value) && r.address == f.address
    ensures forall g :: g != name ==> TopField(r, g) == TopField(f, g)
  {
    match name
    case "firstName" => f.(firstName := value)
    case "lastName" => f.(lastName := value)
    case "middleName" => f.(middleName := value)
    case "email" => f.(email := value)
    case "phone" => f.(phone := value)
    case _ => f.(extra := f.extra[name := value])
  }

  /**
   * handleSelectChange: a name "address.X..." sets address field X, any other name sets
   * that top-level field; nothing else changes.
   */
  function HandleSelectChange(f: FormData, name: string, value: string): (r: FormData)
    requires name != "address"
    ensures Text.StartsWith(name, ADDRESS_PREFIX) ==>
      && AddressField(r.address, AddressFieldName(name)) == Some(value)
      && (forall g :: g != AddressFieldName(name) ==> AddressField(r.address, g) == AddressField(f.address, g))
      && (forall g :: TopField(r, g) == TopField(f, g))
    ensures !Text.StartsWith(name, ADDRESS_PREFIX) ==>
      && TopField(r, name) == Some(value) && r.address == f.address
      && (forall g :: g != name ==> TopField(r, g) == TopField(f, g))
  {
    if Text.StartsWith(name, ADDRESS_PREFIX) then
      f.(address := SetAddressField(f.address, AddressFieldName(name), value))
    else SetTopField(f, name, value)
  }

  /** Selecting a value for "address.X" sets X alone and leaves every top-level field as it was. */
  lemma SelectAddressField(f: FormData, field: string, value: string)
    requires forall i :: 0 <= i < |field| ==> field[i] != '.'
    ensures var r := HandleSelectChange(f, ADDRESS_PREFIX + field, value);
      && AddressField(r.address, field) == Some(value)
      && (forall g :: g != field ==> AddressField(r.address, g) == AddressField(f.address, g))
      && (forall g :: TopField(r, g) == TopField(f, g))
  {
    AddressFieldNameOf(field);
    var r := f.(address := SetAddressField(f.address, field, value));
    assert HandleSelectChange(f, ADDRESS_PREFIX + field, value) == r;
    assert r.(address := f.address) == f;
  }

  /** Selecting a value for a top-level name sets that field alone and leaves the address as it was. */
  lemma SelectTopField(f: FormData, name: string, value: string)
    requires name != "address" && !Text.StartsWith(name, ADDRESS_PREFIX)
    ensures var r := HandleSelectChange(f, name, value);
      && TopField(r, name) == Some(value) && r.address == f.address
      && (forall g :: g != name ==> TopField(r, g) == TopField(f, g))
  {
  }

  /** The form's state: the record and the errors shown beside it. */
  datatype FormState = FormState(formData: FormData, errors: ValidationErrors)

  /**
   * handleInputChange: an address field is set (the city title-cased); the phone is
   * stored formatted and its error set or cleared by validity; the email is stored as
   * typed and its error set or cleared by validity; any other field is set as typed.
   */
  function HandleInputChange(s: FormState, name: string, value: string, validEmail: string -> bool): (r: FormState)
    requires name != "address"
    ensures Text.StartsWith(name, ADDRESS_PREFIX) ==>
      var field := AddressFieldName(name);
      && AddressField(r.formData.address, field) == Some(if field == "locality" then TitleCase(value) else value)
      && (forall g :: g != field ==> AddressField(r.formData.address, g) == AddressField(s.formData.address, g))
      && (forall g :: TopField(r.formData, g) == TopField(s.formData, g))
    ensures name == PHONE_KEY ==>
      && r.formData.phone == Phone.FormatPhoneNumber(value)
      && (PHONE_KEY in r.errors <==> !Phone.ValidatePhoneNumber(Phone.FormatPhoneNumber(value)))
    ensures name == EMAIL_KEY ==> r.formData.email == value && (EMAIL_KEY in r.errors <==> value == "" || !validEmail(value))
    ensures name != PHONE_KEY && name != EMAIL_KEY ==> r.errors == s.errors
    ensures forall k :: k != name && k in s.errors ==> k in r.errors && r.errors[k] == s.errors[k]
    ensures forall k :: k != name && k in r.errors ==> k in s.errors
  {
    if Text.StartsWith(name, ADDRESS_PREFIX) then
      var field := AddressFieldName(name);
      var processed := if field == "locality" then TitleCase(value) else value;
      s.(formData := s.formData.(address := SetAddressField(s.formData.address, field, processed)))
    else if name == PHONE_KEY then
      var formatted := Phone.FormatPhoneNumber(value);
      var errors := if formatted == "" || !Phone.ValidatePhoneNumber(formatted)
        then s.errors[PHONE_KEY := PHONE_INVALID] else s.errors - {PHONE_KEY};
      FormState(SetTopField(s.formData, name, formatted), errors)
    else if name == EMAIL_KEY then
      var errors := if value == "" || !validEmail(value)
        then s.errors[EMAIL_KEY := EMAIL_INVALID] else s.errors - {EMAIL_KEY};
      FormState(SetTopField(s.formData, name, value), errors)
    else s.(formData := SetTopField(s.formData, name, value))
  }

  /**
   * Typing a phone number stores its formatted form, whose error is cleared exactly when
   * the typed number is valid; no other field and no other error changes.
   */
  lemma InputPhone(s: FormState, value: string, validEmail: string -> bool)
    ensures var r := HandleInputChange(s, PHONE_KEY, value, validEmail);
      && r.formData.phone == Phone.FormatPhoneNumber(value)
      && (PHONE_KEY !in r.errors <==> Phone.ValidatePhoneNumber(Phone.FormatPhoneNumber(value)))
      && (Phone.ValidatePhoneNumber(value) ==> PHONE_KEY !in r.errors)
      && (PHONE_KEY in r.errors ==> r.errors[PHONE_KEY] == PHONE_INVALID)
      && (forall k :: k != PHONE_KEY ==> (k in r.errors <==> k in s.errors))
      && (forall g :: g != PHONE_KEY ==> TopField(r.formData, g) == TopField(s.formData, g))
      && r.formData.address == s.formData.address
  {
    var formatted := Phone.FormatPhoneNumber(value);
    assert !Text.StartsWith(PHONE_KEY, ADDRESS_PREFIX);
    Phone.FormatEmptyAndCountryCode(value);
    Phone.FormatKeepsDigits(value);
    if Phone.ValidatePhoneNumber(value) {
      Phone.FormatPreservesValidity(value);
    }
    if Phone.ValidatePhoneNumber(formatted) {
      assert formatted != "";
    }
  }

  /**
   * Typing an email stores it as typed, whose error is cleared exactly when it is a
   * non-empty valid address; no other field and no other error changes.
   */
  lemma InputEmail(s: FormState, value: string, validEmail: string -> bool)
    ensures var r := HandleInputChange(s, EMAIL_KEY, value, validEmail);
      && r.formData.email == value
      && (EMAIL_KEY !in r.errors <==> value != "" && validEmail(value))
      && (EMAIL_KEY in r.errors ==> r.errors[EMAIL_KEY] == EMAIL_INVALID)
      && (forall k :: k != EMAIL_KEY ==> (k in r.errors <==> k in s.errors))
      && (forall k :: k != EMAIL_KEY && k in s.errors ==> r.errors[k] == s.errors[k])
      && (forall g :: g != EMAIL_KEY ==> TopField(r.formData, g) == TopField(s.formData, g))
      && r.formData.address == s.formData.address
  {
    assert !Text.StartsWith(EMAIL_KEY, ADDRESS_PREFIX);
  }

  /** Typing into any other top-level field stores the text as typed; no error changes. */
  lemma InputOtherField(s: FormState, name: string, value: string, validEmail: string -> bool)
    requires name != "address" && !Text.StartsWith(name, ADDRESS_PREFIX)
    requires name != PHONE_KEY && name != EMAIL_KEY
    ensures var r := HandleInputChange(s, name, value, validEmail);
      && TopField(r.formData, name) == Some(value)
      && (forall g :: g != name ==> TopField(r.formData, g) == TopField(s.formData, g))
      && r.formData.address == s.formData.address && r.errors == s.errors
  {
  }

  /**
   * Typing into "address." + a dot-free field stores the text in that field, title-cased
   * for the city and as typed otherwise; no other address field and no error changes.
   */
  lemma InputAddressField(s: FormState, field: string, value: string, validEmail: string -> bool)
    requires forall i :: 0 <= i < |field| ==> field[i] != '.'
    ensures var r := HandleInputChange(s, ADDRESS_PREFIX + field, value, validEmail);
      && AddressField(r.formData.address, field) == Some(if field == "locality" then TitleCase(value) else value)
      && (forall g :: g != field ==> AddressField(r.formData.address, g) == AddressField(s.formData.address, g))
      && r.formData.address.extra.Keys <= s.formData.address.extra.Keys + {field}
      && r.errors == s.errors
  {
    AddressFieldNameOf(field);
  }

  /** Typing into the city stores the title-cased text; only that address field changes. */
  lemma InputLocality(s: FormState, value: string, validEmail: string -> bool)
    ensures var r := HandleInputChange(s, ADDRESS_PREFIX + "locality", value, validEmail);
      && AddressField(r.formData.address, "locality") == Some(TitleCase(value))
      && (forall g :: g != "locality" ==> AddressField(r.formData.address, g) == AddressField(s.formData.address, g))
      && r.errors == s.errors
  {
    InputAddressField(s, "locality", value, validEmail);
  }

  /** resetForm: the default record and no errors. */
  function ResetForm(): (r: FormState)
    ensures r.errors == map[]
    ensures TopField(r.formData, FIRST_NAME_KEY) == Some("") && TopField(r.formData, EMAIL_KEY) == Some("")
    ensures AddressField(r.formData.address, "country") == Some("US")
    ensures AddressField(r.formData.address, "type") == Some("HOME")
    ensures forall g :: g != "country" && g != "type" && AddressField(r.formData.address, g).Some? ==>
      AddressField(r.formData.address, g) == Some("")
    ensures forall g :: TopField(r.formData, g).Some? ==> TopField(r.formData, g) == Some("")
  {
    FormState(DEFAULT_FORM, map[])
  }

  /**
   * The reset record fails every check of validateForm with its "required" message
   * (by ValidateForm's contract all eight keys are reported), whatever the email test.
   */
  lemma ResetFormInvalid(validEmail: string -> bool)
    ensures var f := ResetForm().formData;
      && Text.IsBlank(f.firstName) && Text.IsBlank(f.lastName) && f.email == "" && f.phone == ""
      && Text.IsBlank(f.address.line1) && Text.IsBlank(f.address.locality)
      && f.address.majorAdminDivision == "" && Text.IsBlank(f.address.postalCode)
      && !FormValid(f, validEmail)
  {
  }
}
