/** Optional values and the answers of calls into code outside the model. */
module Wrappers {

  /** A value that may be absent: the source's `null`, `undefined` or a missing key. */
  datatype Option<+T> = None | Some(value: T)

  /** What a wallet provider, a signer or the ledger contract throws: an error object with
      a numeric `code` (EIP-1193 error codes such as 4902) and a `message`. */
  datatype ProviderError = ProviderError(code: int, message: string)

  /** The outcome of one awaited call into the provider or the contract: it either returns a
      value or throws. Each such call of the source becomes one parameter of this type. */
  datatype Attempt<+T> = Returned(value: T) | Threw(error: ProviderError)
}
