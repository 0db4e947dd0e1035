/**
 * Types shared by the configuration listeners of the directory server:
 * LDAP result codes, the outcome of applying a configuration change, the
 * exceptions thrown, and the localised messages they carry (as tokens).
 */
module ServerTypes {

  /** The distinguished name of a configuration entry, kept opaque. */
  type Dn = string

  /** The LDAP result codes the modelled code produces. */
  datatype ResultCode =
    | Success
    | InvalidAttributeSyntax
    | Other

  /**
   * The result code the server uses for internal errors.  The server makes
   * it configurable; the model fixes it to its default, which is not
   * `Success`.
   */
  const ServerErrorResultCode: ResultCode := Other

  /**
   * What caused an alert handler to fail to load: either an exception thrown
   * by reflection or by the handler itself (its text kept opaque), or the
   * "configuration not acceptable" error raised for a dry-run rejection.
   */
  datatype Cause =
    | Thrown(detail: string)
    | Raised(message: Message)

  /** The localised messages of the modelled code, as tokens with their arguments. */
  datatype Message =
    | AlertHandlerConfigNotAcceptable(dn: Dn, reasons: string)
    | AlertHandlerInitializationFailed(className: string, dn: Dn, cause: Cause)
    | BitStringTooShort(value: string)
    | BitStringNotQuoted(value: string)
    | BitStringInvalidBit(value: string, bit: char)
    | LoggerErrorListingFiles(initialName: string)

  /** The outcome of applying a configuration add, change or delete. */
  datatype ConfigChangeResult = ConfigChangeResult(
    resultCode: ResultCode,
    adminActionRequired: bool,
    messages: seq<Message>)

  /** The plain successful outcome: no administrative action, no messages. */
  const Applied: ConfigChangeResult := ConfigChangeResult(Success, false, [])

  /** An exception carrying an LDAP result code and a message. */
  datatype DirectoryException = DirectoryException(resultCode: ResultCode, message: Message)
}
