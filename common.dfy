/** Shared vocabulary: optional values, results in place of the Python exceptions, and the
    helpers of LDSUtilities whose code is not part of this model. */
module Common {

  datatype Option<+T> = None | Some(value: T)

  datatype Result<+T, +E> = Success(value: T) | Failure(error: E)

  /** Which structural check of a connection string failed. */
  datatype Fault =
    | NoHttp          // does not start with http://
    | WrongHost       // the service root of the protocol version is missing
    | NoApiKey        // no 32-hex API key at the place the version expects it
    | NoWfsMarker     // no wfs? service marker
    | LayerMismatch   // the embedded layer differs from the explicit one
    | DateMismatch    // an explicit date is not embedded in the string
    | BadApiKey       // an API key without 32 consecutive hex digits
    | KeyNotFound     // no key can be extracted from the string
    | NotPostgreSQL   // does not start with PG:
    | NoDbName
    | NoPgHost
    | NoPgPort

  /** The input that a TransferProcessor run rejects before it transfers anything. */
  datatype InputField = ToDate | FromDate | LayerName

  /** The exceptions the modelled code raises. */
  datatype Error =
    | MalformedConnectionString(fault: Fault)
    | UnknownDSVersion(version: string)
    | InputMisconfiguration(field: InputField)
    | TypeError    // Python applied + or re.search to None
    | ValueError   // datetime.strptime could not read a date

  /** The static helpers of LDSUtilities that the core calls. Their code is not part of this
      model, so every property proved here holds whatever these functions do. */
  datatype Utilities = Utilities(
    checkCQL: string -> string,
    splitLayerName: string -> string,
    getLayerNameFromURL: string -> Option<string>,
    checkDateFormat: string -> bool,
    checkLayerName: string -> bool,
    cropChangeset: string -> string)
}
