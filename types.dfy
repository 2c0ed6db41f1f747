/** The record shapes the pages exchange: token metadata, a listed token and the status of
    a mint transaction. */
module Types {
  import opened Wrappers

  /** One `{ trait_type, value }` entry of a token's attribute list. */
  datatype Attribute = Attribute(traitType: string, value: string)

  /** `TokenMetadata`: what a token's URI describes. */
  datatype TokenMetadata = TokenMetadata(
    name: string,
    description: string,
    image: string,
    attributes: seq<Attribute>)

  /** `NFTToken`: one token as the gallery lists it. */
  datatype NFTToken = NFTToken(
    id: nat,
    owner: string,
    dnaHash: string,
    tokenURI: string,
    metadata: Option<TokenMetadata>)

  /** The four values of `TransactionStatus.status`. */
  datatype StatusKind = StatusNone | StatusPending | StatusSuccess | StatusError

  /** `TransactionStatus`: the phase of a mint, with the transaction hash or the error
      message when there is one. */
  datatype TransactionStatus = TransactionStatus(
    status: StatusKind,
    hash: Option<string>,
    error: Option<string>)
}
