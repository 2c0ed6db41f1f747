# DNA Identity NFT minting front end — a Dafny model

This project models the logic of a browser front end that mints "DNA Identity" NFTs on the
Sepolia test network and lists the tokens a wallet owns. The front end is mostly presentation;
its logic sits in five places, and each is one module here:

- `Web3Context` (`web3_context.dfy`): the wallet session. It holds seven fields: connected,
  account, provider, signer, contract, network name and the correct-network flag. Its operations
  are initialize, connect, disconnect, switch network (with the one add-chain fallback on wallet
  error code 4902) and the accounts-changed handler. `Web3Session` is a class with those fields.
  Each method updates them in the source's order and is specified by a function from the old
  snapshot (`SessionState`) to the new one. The network banner's condition sits beside it.
- `Mint` (`mint.dfy`): the mint page. It covers the attribute-list editor, the metadata record
  built for the token URI, and the mint run: its guard, its status transitions, the token id read
  from the first Transfer log and the redirect. `MintPage` is a class with the page's state.
- `WalletButton` (`wallet_button.dfy`): the shortened address, the dropdown flag and its
  handlers, and which controls the button offers.
- `DnaCard` (`dna_card.dfy`): hash truncation, the title fallback, and the image state that
  the load and error callbacks update.
- `Gallery` (`gallery.dfy`): the ownership scan over token ids. It keeps a token when its owner
  matches the account ignoring case, skips ids whose lookups fail, and falls back to fixed
  metadata when a token URI is not JSON.

Supporting modules:

- `Wrappers`: `Option`, and `Attempt` (a call that returns a value or throws an error with a
  code and a message).
- `Strings`: JavaScript's `trim`, `substring` (with its clamping and argument swap) and lower
  casing.
- `Numerals`: digit strings in bases 2 to 16, with the decode round trip.
- `Types`: the records of `src/utils/types.ts`.

Everything outside the page is a parameter. This covers the wallet provider, the contract's read
and write calls, `JSON.parse`, `Date.now()` and the receipt's parsed logs. Each awaited call is
one `Attempt` field of an answers record. The model reads that field only when the source
reaches the call.

## Where the code and the design description differ

The model follows the code in each case:

- Addresses are never lower-cased. The session stores the account exactly as the provider
  returns it. The accounts-changed handler compares strings exactly. Only the gallery's owner
  filter ignores case (`Web3Context.AccountsChangedCases`, `Gallery.ScannedTokensAreOwned`).
- Session updates are not atomic. If reading the network throws after the new signer is set,
  the old contract handle stays, still bound to the previous signer. The network name and the
  correct-network flag also keep the values read for the previous session, even when the new
  account is a different one, so the flag can be stale
  (`Web3Context.NetworkErrorKeepsPreviousContract`).
- After a successful add-chain request, `switchNetwork` re-initializes without a second switch
  request (`Web3Context.SwitchNetworkAttemptsOnce`).

## Model

| member | source | states |
|---|---|---|
| Strings.TrimIsEmptyIffBlank | src/pages/Mint.tsx:45 | `s.trim()` is empty exactly when every character of `s` is JavaScript whitespace |
| Strings.TrimStart | src/pages/Mint.tsx:45 | the result is a suffix of the input; everything dropped is whitespace; the result does not start with whitespace |
| Strings.TrimEnd | src/pages/Mint.tsx:45 | the result is a prefix of the input; everything dropped is whitespace; the result does not end with whitespace |
| Strings.Substring | src/components/web3/WalletButton.tsx:25 | in-range arguments give the slice; other arguments are clamped into range first; the result is never longer than the input |
| Strings.LowerChar | src/pages/Gallery.tsx:45 | an ASCII capital becomes the small letter 32 code points above it; any other character is left alone |
| Strings.SameIgnoringCaseIff | src/pages/Gallery.tsx:45 | two strings are equal after lower-casing exactly when they have the same length and, position by position, are the same character or the capital and small form of one ASCII letter |
| Numerals.ToBase | src/contexts/Web3Context.tsx:137 | a non-empty digit string in the base, with a leading zero only for the number 0 |
| Numerals.FromBaseToBase | src/contexts/Web3Context.tsx:137 | decoding the printed digits gives back the number |
| Numerals.ToBaseInjective | src/contexts/Web3Context.tsx:61 | two numbers print alike exactly when they are equal |
| Numerals.DecimalRoundTrip | src/pages/Mint.tsx:106 | the decimal string is a numeral that parses back to the number |
| Web3Context.RequiredChainIdPrintsAsRequiredNetworkId | src/contexts/Web3Context.tsx:36 | chain id 11155111 prints as the required network id string |
| Web3Context.CorrectNetworkIffSepolia | src/contexts/Web3Context.tsx:61-63 | the printed chain id equals the required id exactly when the chain is Sepolia |
| Web3Context.RequiredNetworkIdParses | src/contexts/Web3Context.tsx:137 | `parseInt` of the required network id string gives chain id 11155111 |
| Web3Context.RequiredChainIdPrintsAsHex | src/contexts/Web3Context.tsx:137 | chain id 11155111 prints in base 16 as "aa36a7" |
| Web3Context.RequiredChainHex | src/contexts/Web3Context.tsx:137 | the switch and add-chain parameter is "0xaa36a7": 0x-prefixed, no leading zero, and it decodes to 11155111 |
| Web3Context.GetNetworkName | src/contexts/Web3Context.tsx:78-87 | never empty; a "Chain ID: " fallback exactly for ids outside the five-entry table, carrying the id; "Sepolia Testnet" exactly for the required id |
| Web3Context.NetworkNameDeterminesChain | src/contexts/Web3Context.tsx:78-87 | two chain ids shown under the same name are equal |
| Web3Context.Disconnected | src/contexts/Web3Context.tsx:121-126 | disconnected with no account, signer or contract; provider, network name and flag unchanged |
| Web3Context.InitializedKeepsInvariant | src/contexts/Web3Context.tsx:47-76 | initialization keeps "not connected implies no account, signer or contract; connected implies account, signer and provider" |
| Web3Context.ConnectedKeepsInvariant | src/contexts/Web3Context.tsx:89-119 | connecting keeps the session invariant |
| Web3Context.AccountsChangedKeepsInvariant | src/contexts/Web3Context.tsx:175-181 | the accounts-changed handler keeps the session invariant |
| Web3Context.SwitchKeepsInvariant | src/contexts/Web3Context.tsx:128-170 | switching networks keeps the session invariant |
| Web3Context.InitializeWithoutAccountKeepsSession | src/contexts/Web3Context.tsx:48-58 | with no provider, no authorized account, or a failed list or signer call, only the provider field may change |
| Web3Context.InitializeTakesFirstAccount | src/contexts/Web3Context.tsx:53-70 | connects to the first listed account verbatim with the new signer; once the network is read, the flag is "chain is Sepolia", the name is the chain's name and the contract is bound to that signer |
| Web3Context.ConnectFailureKeepsSession | src/contexts/Web3Context.tsx:89-118 | no provider, or a failed account request, signer or address call, leaves every session field unchanged |
| Web3Context.ConnectUsesSignerAddress | src/contexts/Web3Context.tsx:92-112 | a successful connect uses the signer's address verbatim; once the network is read, the flag is "chain is Sepolia" and the contract is bound to the new signer |
| Web3Context.NetworkErrorKeepsPreviousContract | src/contexts/Web3Context.tsx:55-70 | when the network read throws, the new signer and account are set, but the previous contract handle, network name and correct-network flag stay |
| Web3Context.ReinitializeUndoesDisconnect | src/contexts/Web3Context.tsx:190-200 | initialization after a disconnect connects again while the wallet still lists an authorized account |
| Web3Context.AccountsChangedCases | src/contexts/Web3Context.tsx:175-181 | an empty list disconnects; an equal first account changes nothing; a different one, compared exactly, re-initializes |
| Web3Context.SwitchNetworkAttemptsOnce | src/contexts/Web3Context.tsx:128-170 | no provider: one alert and no change. Otherwise one switch request for "0xaa36a7", never retried. At most one add-chain request, made exactly on error code 4902. At most one re-initialization, last, exactly when the switch or the add succeeded. Otherwise the session is unchanged |
| Web3Context.SwitchToSepoliaHidesBanner | src/components/web3/NetworkBanner.tsx:8 | the banner is hidden after a disconnect, and after a successful switch whose re-initialization reads Sepolia |
| Web3Context.Web3Session.constructor | src/contexts/Web3Context.tsx:39-45 | the initial field values; the invariant holds |
| Web3Context.Web3Session.ReadNetwork | src/contexts/Web3Context.tsx:60-70 | the new state is the network tail of initialize and connect |
| Web3Context.Web3Session.InitializeWeb3 | src/contexts/Web3Context.tsx:47-76 | the new state is `Initialized` of the old one; the invariant is kept |
| Web3Context.Web3Session.ConnectWallet | src/contexts/Web3Context.tsx:89-119 | alerts exactly when there is no provider; the new state is `Connected` of the old one; the invariant is kept |
| Web3Context.Web3Session.DisconnectWallet | src/contexts/Web3Context.tsx:121-126 | the new state is `Disconnected` of the old one; the invariant is kept |
| Web3Context.Web3Session.SwitchNetwork | src/contexts/Web3Context.tsx:128-170 | the new state and the requests made, in order, are those of `SwitchNetworkRun`; the invariant is kept |
| Web3Context.Web3Session.HandleAccountsChanged | src/contexts/Web3Context.tsx:175-181 | the new state is `AccountsChanged` of the old one; the invariant is kept |
| Mint.SpliceOne | src/pages/Mint.tsx:37 | `splice(index, 1)`: removes the row at a valid index, counts a negative index from the end, removes nothing past the end |
| Mint.FilledAttributes | src/pages/Mint.tsx:44-46 | the filtered list is never longer than the input |
| Mint.FilledAttributesMembers | src/pages/Mint.tsx:44-46 | a row is kept exactly when it is a row of the input with both fields non-blank |
| Mint.FilledAttributesOfConcat | src/pages/Mint.tsx:44-46 | the filter works row by row, so kept rows keep their relative order |
| Mint.FilledAttributesKeepsFilledList | src/pages/Mint.tsx:44-46 | a list of filled rows passes the filter unchanged |
| Mint.GenerateMetadata | src/pages/Mint.tsx:42-57 | name, description and image fall back to their defaults exactly when the input is blank, else the untrimmed input; none is ever blank; attributes are the filled rows; the hash is copied |
| Mint.FirstTransferIsFirst | src/pages/Mint.tsx:84-96 | an id is found exactly when some log is a Transfer, and it comes from the first one |
| Mint.FindTokenId | src/pages/Mint.tsx:84-96 | the loop, which skips unparsable logs and breaks at a Transfer, returns the first Transfer's id |
| Mint.RedirectPath | src/pages/Mint.tsx:104-110 | "/gallery" exactly when no id was found or the id is 0; otherwise "/token/" and a decimal that parses back to the id |
| Mint.MintGuards | src/pages/Mint.tsx:60-67 | without connection, contract and correct network nothing happens; with them but a blank hash, only an alert |
| Mint.MintSendsCall | src/pages/Mint.tsx:59-73 | a transaction is sent exactly when the guard passes and the hash is not blank, with the hash and the built metadata, after a hashless pending status |
| Mint.MintSuccessStatuses | src/pages/Mint.tsx:70-110 | with a receipt, the statuses are pending, then pending with the hash, then success with the same hash; the redirect follows the first Transfer |
| Mint.MintErrorStatus | src/pages/Mint.tsx:112-117 | a thrown submission or receipt ends in error with that error's message and no redirect |
| Mint.EnabledButtonSends | src/pages/Mint.tsx:331 | an enabled mint button, on a page whose session has a contract, sends a transaction |
| Mint.MintPage.constructor | src/pages/Mint.tsx:12-22 | empty fields, the rows Source and Type, status none |
| Mint.MintPage.HandleAttributeChange | src/pages/Mint.tsx:24-28 | only the chosen field of the chosen row changes; the length and every other row stay |
| Mint.MintPage.AddAttribute | src/pages/Mint.tsx:30-32 | exactly one blank row is appended |
| Mint.MintPage.RemoveAttribute | src/pages/Mint.tsx:34-40 | with more than one row, the row at the index goes and the rest keep their order; the list never becomes empty |
| Mint.MintPage.MintNFT | src/pages/Mint.tsx:59-119 | the alert, the call, the statuses in order and the redirect are those of `MintNFTRun`; the page's status is the last one set |
| Gallery.TokenAt | src/pages/Gallery.tsx:43-70 | a token is pushed exactly when the owner, hash and URI lookups return and the owner matches the account ignoring case; it carries the id, the owner and the parsed or fallback metadata |
| Gallery.ScannedAscending | src/pages/Gallery.tsx:41 | ids lie in 1 .. totalSupply - 1, in strictly ascending order |
| Gallery.ScannedExactly | src/pages/Gallery.tsx:41-76 | a token is in the result exactly when its id is in range and that id's loop pass pushes it; failing ids are skipped |
| Gallery.ScannedTokensAreOwned | src/pages/Gallery.tsx:45 | every kept token's owner is the looked-up owner and matches the account ignoring case; no id appears twice |
| Gallery.ScanTokens | src/pages/Gallery.tsx:41-76 | the loop's result is the scan over ids 1 .. totalSupply - 1 |
| Gallery.FetchOutcomes | src/pages/Gallery.tsx:15-85 | without the guard nothing changes; with it, loading ends false; a zero balance gives no tokens; a failing balance or counter call keeps the list and sets the message; otherwise the tokens are the scan |
| Gallery.GalleryPage.constructor | src/pages/Gallery.tsx:11-13 | no tokens, not loading, no error |
| Gallery.GalleryPage.FetchTokens | src/pages/Gallery.tsx:15-85 | the new page state is `Fetched` of the old one |
| DnaCard.DisplayHash | src/components/dna/DNACard.tsx:59 | over 40 characters: the first 40 and "..." (43 in all); otherwise the hash itself; always starts with the first min(40, n) characters |
| DnaCard.CardTitle | src/components/dna/DNACard.tsx:44 | never empty; the metadata's name when non-empty, else "DNA NFT #" and the id |
| DnaCard.CardImage.constructor | src/components/dna/DNACard.tsx:13-14 | the placeholder image, not loaded |
| DnaCard.CardImage.LoadImage | src/components/dna/DNACard.tsx:16-32 | with an image, requests it and changes nothing; without one, marks loaded and keeps the shown image |
| DnaCard.CardImage.OnLoad | src/components/dna/DNACard.tsx:19-22 | shows the image of the metadata whose load was requested, marked loaded |
| DnaCard.CardImage.OnError | src/components/dna/DNACard.tsx:23-26 | back to the placeholder, marked loaded |
| WalletButton.FormatAddress | src/components/web3/WalletButton.tsx:24-26 | the first min(6, n) characters, "...", then the last min(4, n); 13 characters for any address of at least 10 |
| WalletButton.Controls | src/components/web3/WalletButton.tsx:28-70 | disconnected: only "Connect Wallet". Connected: the account button first. With the menu open, "Disconnect", and "Switch Network" exactly on the wrong network. A closed menu offers neither |
| WalletButton.SwitchOfferedIffBannerShown | src/components/web3/WalletButton.tsx:54-61 | with the menu open, "Switch Network" is offered exactly when the network banner shows |
| WalletButton.WalletButtonState.constructor | src/components/web3/WalletButton.tsx:7 | the dropdown starts closed |
| WalletButton.WalletButtonState.ToggleDropdown | src/components/web3/WalletButton.tsx:9-11 | flips the dropdown flag |
| WalletButton.WalletButtonState.CloseMenu | src/components/web3/WalletButton.tsx:53 | closes the dropdown |
| WalletButton.WalletButtonState.HandleDisconnect | src/components/web3/WalletButton.tsx:13-16 | the session is disconnected, then the dropdown is closed |
| WalletButton.WalletButtonState.HandleSwitchNetwork | src/components/web3/WalletButton.tsx:18-21 | the session's network switch runs, then the dropdown is closed |

## Left out

- Rendering, routing and the pages with no logic of their own are not part of this model:
  `src/pages/Home.tsx`, `src/App.tsx`, the layout components, the helix animation, and the
  markup of every modelled component.
- `src/pages/TokenDetails.tsx` and `src/pages/Verify.tsx` are not part of this model. They are
  short chains of contract calls. Their metadata fallback repeats the gallery's, which is
  modelled once in `Gallery`.
- The wallet provider, ethers, `window.ethereum.request`, the contract calls, `parseLog`,
  `JSON.parse` and `Date.now()` are parameters. `alert`, `setTimeout`, `navigate` and `console`
  appear only as outputs (an `alerted` flag, the effect list, the redirect path) or are dropped.
- `JSON.stringify`: the token URI is modelled as the metadata record, not its JSON text.
- In the gallery, `JSON.parse` may return a value that is not an object (a number, say). The
  source stores any such value as the metadata; the model only has "parsed to a metadata
  record" or "threw".
- Listener subscription and removal are not modelled. Neither is the page reload on
  chain-changed, a browser effect. The effect on `[account]` re-runs initialization, which is
  stated only as `Web3Context.ReinitializeUndoesDisconnect`.
- Concurrency is not modelled. `handleSwitchNetwork` does not await the switch. Re-initializations
  can race each other. An image callback from an earlier effect run can arrive late. Each
  operation is modelled as one sequential run of its steps.
- DnaCard.DisplayHash and WalletButton.FormatAddress: strings are modelled as sequences of code
  points, while JavaScript's `length` and `substring` count UTF-16 code units. For a hash with a
  character outside the Basic Multilingual Plane, the source cuts at 40 code units and can split
  a surrogate pair; the model cuts at 40 characters. The same holds for every other length in
  the model.
- Strings.ToLower: lower-cases ASCII letters only, where JavaScript's `toLowerCase` covers all of
  Unicode. The owner filter compares hexadecimal addresses, which are ASCII.
- Web3Context.GetNetworkName: a lookup in a plain object also finds inherited keys such as
  `constructor`. The chain ids passed in are decimal digit strings, so the model leaves this out.
- `Number(balance)`, `Number(totalSupply)` and token ids are unbounded naturals. The loss of
  precision above 2^53 is not modelled.
- Thrown values are errors with a code and a message. A thrown non-`Error` value, whose
  `.message` would be undefined, is not modelled.
- Mint.MintPage.HandleAttributeChange: requires an index inside the list. The page only passes
  the index of a rendered row. The model does not capture that the shallow copy shares row
  objects with the old list, so the old list's row is written too.
