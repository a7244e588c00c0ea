/** Success and failure values for the plugin's operations, and the errors they raise. */
module Outcomes {

  datatype Option<+T> = None | Some(value: T)

  /** The host's incoming-transaction checks, in the order they are applied. */
  datatype HostCheck = SourceCheck | InvoiceCheck | StatusCheck | TermsCheck

  datatype Error =
    /** `Am_Exception_InputError`: its text is shown to the payer. */
    | InputError(message: string)
    /** `Am_Exception_InternalError`: logged, the payer sees a generic page. */
    | InternalError(message: string)
    /** A PHP engine `Error`, which is not an `Exception`. */
    | PhpError(message: string)
    /** The host refused the incoming transaction at one of its checks. */
    | TransactionInvalid(check: HostCheck)

  /** What an operation returns, or the exception it throws. */
  datatype Result<+T> = Success(value: T) | Failure(error: Error)
}
