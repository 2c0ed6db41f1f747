/** The gallery page: `fetchTokens` scans token ids, keeps those the connected account
    owns, and falls back to fixed metadata when a token URI is not JSON.

    The contract's read calls are parameters (`Ledger`); `JSON.parse` is the parameter
    `parseMetadata`, which gives `None` where the source's parse throws. */
module Gallery {
  import opened Wrappers
  import opened Types
  import Strings
  import Numerals

  const LoadError := "Failed to load your NFTs. Please try again later."
  const FallbackNamePrefix := "DNA Identity #"
  const FallbackDescription := "DNA Identity NFT"
  const FallbackImage := "https://images.pexels.com/" + "photos/356040/pexels-photo-356040.jpeg"
                         + "?auto=compress&cs=tinysrgb&w=1260&h=750&dpr=2"

  /** What the page reads from the session. */
  datatype GalleryView = GalleryView(
    connected: bool,
    hasContract: bool,
    account: Option<string>,
    isCorrectNetwork: bool)

  /** The contract's answers to the page's read calls. */
  datatype Ledger = Ledger(
    balance: Attempt<nat>,                          // `balanceOf(account)`
    tokenCounter: Attempt<nat>,                     // `tokenCounter()`
    ownerOf: nat -> Attempt<string>,                // `ownerOf(i)`
    dnaHashOf: nat -> Attempt<string>,              // `getDNAHash(i)`
    tokenURIOf: nat -> Attempt<string>,             // `tokenURI(i)`
    parseMetadata: string -> Option<TokenMetadata>) // `JSON.parse(uri)`; `None` when it throws

  /** The metadata a token whose URI is not JSON is shown with. */
  function FallbackMetadata(id: nat): TokenMetadata {
    TokenMetadata(FallbackNamePrefix + Numerals.Decimal(id), FallbackDescription, FallbackImage, [])
  }

  /** One pass of the loop body for id `id`: the token it pushes, if any. A token is pushed
      exactly when `ownerOf`, `getDNAHash` and `tokenURI` all return and the owner equals the
      account ignoring case; it carries the id and the owner as looked up, and the parsed
      metadata or else the fallback. */
  function TokenAt(account: string, ledger: Ledger, id: nat): (r: Option<NFTToken>)
    ensures r.Some? <==>
      && ledger.ownerOf(id).Returned? && Strings.SameIgnoringCase(ledger.ownerOf(id).value, account)
      && ledger.dnaHashOf(id).Returned? && ledger.tokenURIOf(id).Returned?
    ensures r.Some? ==>
      && r.value.id == id
      && r.value.owner == ledger.ownerOf(id).value
      && r.value.dnaHash == ledger.dnaHashOf(id).value
      && r.value.tokenURI == ledger.tokenURIOf(id).value
      && r.value.metadata.Some?
      && (ledger.parseMetadata(r.value.tokenURI).None? ==> r.value.metadata.value == FallbackMetadata(id))
      && (ledger.parseMetadata(r.value.tokenURI).Some? ==>
            r.value.metadata == ledger.parseMetadata(r.value.tokenURI))
  {
    match ledger.ownerOf(id)
    case Threw(_) => None
    case Returned(owner) =>
      if !Strings.SameIgnoringCase(owner, account) then None
      else
        match ledger.dnaHashOf(id)
        case Threw(_) => None
        case Returned(dnaHash) =>
          match ledger.tokenURIOf(id)
          case Threw(_) => None
          case Returned(uri) =>
            var metadata := match ledger.parseMetadata(uri)
              case Some(m) => m
              case None => FallbackMetadata(id);
            Some(NFTToken(id, owner, dnaHash, uri, Some(metadata)))
  }

  /** The tokens the scan collects from ids 1 up to, but excluding, `end`, in id order. */
  function Scanned(account: string, ledger: Ledger, end: nat): seq<NFTToken>
    decreases end
  {
    if end <= 1 then []
    else
      Scanned(account, ledger, end - 1)
      + match TokenAt(account, ledger, end - 1) case None => [] case Some(t) => [t]
  }

  /** The scan's result is in strictly ascending id order, every id in `[1, end)`. */
  lemma {:induction false} ScannedAscending(account: string, ledger: Ledger, end: nat)
    ensures forall k :: 0 <= k < |Scanned(account, ledger, end)| ==>
              1 <= Scanned(account, ledger, end)[k].id < end
    ensures forall k, l :: 0 <= k < l < |Scanned(account, ledger, end)| ==>
              Scanned(account, ledger, end)[k].id < Scanned(account, ledger, end)[l].id
    decreases end
  {
    if end > 1 {
      ScannedAscending(account, ledger, end - 1);
    }
  }

  /** The scan holds exactly the tokens the loop body pushes for ids 1 .. end - 1: nothing
      is skipped except what the body skips, and id `end` itself is never visited. */
  lemma {:induction false} ScannedExactly(account: string, ledger: Ledger, end: nat)
    ensures forall t :: t in Scanned(account, ledger, end) <==>
              1 <= t.id < end && TokenAt(account, ledger, t.id) == Some(t)
    decreases end
  {
    if end > 1 {
      ScannedExactly(account, ledger, end - 1);
    }
  }

  /** Every token the scan keeps is owned by the account, ignoring case, was found under its
      own id, and no id appears twice. */
  lemma ScannedTokensAreOwned(account: string, ledger: Ledger, end: nat)
    ensures forall t :: t in Scanned(account, ledger, end) ==>
              && ledger.ownerOf(t.id) == Returned(t.owner)
              && Strings.SameIgnoringCase(t.owner, account)
    ensures forall k, l :: 0 <= k < l < |Scanned(account, ledger, end)| ==>
              Scanned(account, ledger, end)[k].id != Scanned(account, ledger, end)[l].id
  {
    ScannedExactly(account, ledger, end);
    ScannedAscending(account, ledger, end);
  }

  /** The `for` loop of `fetchTokens`: ids 1 .. totalSupply - 1 in ascending order, each
      pushed when the body finds it owned by the account, and skipped when a lookup throws. */
  method ScanTokens(account: string, ledger: Ledger, totalSupply: nat) returns (fetched: seq<NFTToken>)
    ensures fetched == Scanned(account, ledger, totalSupply)
  {
    fetched := [];
    var i := 1;
    while i < totalSupply
      invariant 1 <= i <= if totalSupply < 1 then 1 else totalSupply
      invariant fetched == Scanned(account, ledger, i)
    {
      match ledger.ownerOf(i) {
        case Threw(_) =>
        case Returned(tokenOwner) =>
          if Strings.SameIgnoringCase(tokenOwner, account) {
            match ledger.dnaHashOf(i)
            case Threw(_) =>
            case Returned(dnaHash) =>
              match ledger.tokenURIOf(i)
              case Threw(_) =>
              case Returned(tokenURI) =>
                var metadata := match ledger.parseMetadata(tokenURI)
                  case Some(m) => m
                  case None => FallbackMetadata(i);
                fetched := fetched + [NFTToken(i, tokenOwner, dnaHash, tokenURI, Some(metadata))];
          }
      }
      i := i + 1;
    }
  }

  /** A snapshot of the page's `tokens`, `loading` and `error`. */
  datatype GalleryState = GalleryState(tokens: seq<NFTToken>, loading: bool, error: Option<string>)

  /** The guard `connected && contract && account && isCorrectNetwork`; the empty string is
      a falsy account. */
  predicate MayFetch(view: GalleryView) {
    view.connected && view.hasContract && view.account.Some? && view.account.value != ""
    && view.isCorrectNetwork
  }

  /** `fetchTokens`. */
  function Fetched(s: GalleryState, view: GalleryView, ledger: Ledger): GalleryState {
    if !MayFetch(view) then s
    else
      match ledger.balance
      case Threw(_) => GalleryState(s.tokens, false, Some(LoadError))
      case Returned(balance) =>
        if balance == 0 then GalleryState([], false, None)
        else
          match ledger.tokenCounter
          case Threw(_) => GalleryState(s.tokens, false, Some(LoadError))
          case Returned(totalSupply) =>
            GalleryState(Scanned(view.account.value, ledger, totalSupply), false, None)
  }

  /** Without the guard nothing changes; with it, loading always ends, a zero balance gives
      the empty list, a failing balance or counter call keeps the old list and sets the error
      message, and otherwise the list is the scan with no error. */
  lemma FetchOutcomes(s: GalleryState, view: GalleryView, ledger: Ledger)
    ensures !MayFetch(view) ==> Fetched(s, view, ledger) == s
    ensures MayFetch(view) ==> !Fetched(s, view, ledger).loading
    ensures MayFetch(view) && ledger.balance == Returned(0) ==> Fetched(s, view, ledger).tokens == []
    ensures MayFetch(view) && (ledger.balance.Threw? || (ledger.balance.value > 0 && ledger.tokenCounter.Threw?)) ==>
              Fetched(s, view, ledger) == GalleryState(s.tokens, false, Some(LoadError))
    ensures MayFetch(view) && ledger.balance.Returned? && ledger.balance.value > 0 && ledger.tokenCounter.Returned? ==>
              Fetched(s, view, ledger)
                == GalleryState(Scanned(view.account.value, ledger, ledger.tokenCounter.value), false, None)
  {
  }

  /** The state the gallery page holds. */
  class GalleryPage {
    var tokens: seq<NFTToken>
    var loading: bool
    var error: Option<string>

    function State(): GalleryState
      reads this
    {
      GalleryState(tokens, loading, error)
    }

    constructor ()
      ensures State() == GalleryState([], false, None)
    {
      tokens, loading, error := [], false, None;
    }

    method FetchTokens(view: GalleryView, ledger: Ledger)
      modifies this
      ensures State() == Fetched(old(State()), view, ledger)
    {
      if !view.connected || !view.hasContract || view.account.None? || view.account.value == ""
         || !view.isCorrectNetwork {
        return;
      }
      var account := view.account.value;
      loading := true;
      error := None;
      match ledger.balance {
        case Threw(_) =>
          error := Some(LoadError);
        case Returned(totalBalance) =>
          if totalBalance == 0 {
            tokens := [];
            loading := false;
          } else {
            match ledger.tokenCounter
            case Threw(_) =>
              error := Some(LoadError);
            case Returned(totalSupply) =>
              var fetchedTokens := ScanTokens(account, ledger, totalSupply);
              tokens := fetchedTokens;
          }
      }
      loading := false;  // the `finally` block
    }
  }
}
