/**
 * The two customer records of the demo application: the form's record, whose every
 * field is a string, and the SDK's CustomerInfo, whose optional fields may be absent.
 */
module Customer {
  import opened Wrappers

  /**
   * The address part of the form. `extra` holds fields a setter added under a name
   * that is not one of the declared ones (object spread with a computed key adds them).
   */
  datatype FormAddress = FormAddress(
    line1: string, line2: string, locality: string, minorAdminDivision: string,
    majorAdminDivision: string, country: string, postalCode: string, addressType: string,
    extra: map<string, string>)

  /** The form's record (the application's CustomerInfo, with email and phone required). */
  datatype FormData = FormData(
    firstName: string, lastName: string, middleName: string, email: string, phone: string,
    address: FormAddress, extra: map<string, string>)

  /** The SDK's CustomerAddress: line2 and minorAdminDivision are optional. */
  datatype CustomerAddress = CustomerAddress(
    line1: string, line2: Option<string>, locality: string, minorAdminDivision: Option<string>,
    majorAdminDivision: string, country: string, postalCode: string, addressType: string)

  /** The SDK's CustomerInfo: middleName, email and phone are optional. */
  datatype CustomerInfo = CustomerInfo(
    firstName: string, lastName: string, middleName: Option<string>, email: Option<string>,
    phone: Option<string>, address: CustomerAddress)

  /** The form's initial and reset record: every field empty except country US and type HOME. */
  const DEFAULT_FORM: FormData := FormData("", "", "", "", "",
    FormAddress("", "", "", "", "", "US", "", "HOME", map[]), map[])
}
