/** The wallet session: connection state, the active account, the signer and the contract
    handle bound to it, and the network the injected EIP-1193 provider reports.

    The provider's answers are parameters: every awaited call of the source becomes one
    `Attempt` field of an answers record, consulted only when the source reaches that call.
    Each operation is a method of `Web3Session` that runs the source's setters in the source's
    order, and is specified by a function from the old session snapshot to the new one; the
    lemmas below state what the source promises about those functions. */
module Web3Context {
  import opened Wrappers
  import Numerals

  /** `CONTRACT_ADDRESS`: the ledger contract every handle is bound to. */
  const ContractAddress := "0x0000000000000000000000000000000000000000"

  /** `REQUIRED_NETWORK_ID`: the decimal chain id of Sepolia, compared as a string. */
  const RequiredNetworkId := "11155111"

  /** The value of `REQUIRED_NETWORK_ID`. */
  const RequiredChainId: nat := 11155111

  /** The EIP-1193 error code a wallet returns for a chain it does not know. */
  const UnrecognizedChainCode := 4902

  /** The alert shown when no injected provider exists. */
  const InstallWalletMessage := "Please install MetaMask or another Ethereum wallet provider."

  /** An `ethers.BrowserProvider` built over `window.ethereum`; each construction is a new one. */
  datatype ProviderHandle = ProviderHandle(instance: nat)

  /** A `JsonRpcSigner` obtained from a provider. */
  datatype SignerHandle = SignerHandle(instance: nat)

  /** An `ethers.Contract` at an address, bound to a signer. */
  datatype ContractHandle = ContractHandle(address: string, signer: SignerHandle)

  /** A snapshot of the seven session fields. */
  datatype SessionState = SessionState(
    connected: bool,
    account: Option<string>,
    provider: Option<ProviderHandle>,
    signer: Option<SignerHandle>,
    contract: Option<ContractHandle>,
    networkName: string,
    isCorrectNetwork: bool)

  /** The fields' initial values. */
  const InitialState := SessionState(false, None, None, None, None, "", false)

  /** What every operation preserves: a session that is not connected holds no account, no
      signer and no contract; a connected one holds an account, a signer and a provider. */
  predicate SessionInvariant(s: SessionState) {
    && (!s.connected ==> s.account.None? && s.signer.None? && s.contract.None?)
    && (s.connected ==> s.account.Some? && s.signer.Some? && s.provider.Some?)
  }

  // ---------------------------------------------------------------------------------------
  // Chain ids and network names

  /** Proof that `Decimal(11155111)` is `"11155111"`, one digit at a time. */
  lemma RequiredChainIdPrintsAsRequiredNetworkId()
    ensures Numerals.Decimal(RequiredChainId) == RequiredNetworkId
  {
    assert Numerals.ToBase(1, 10) == "1";
    assert Numerals.ToBase(11, 10) == "11";
    assert Numerals.ToBase(111, 10) == "111";
    assert Numerals.ToBase(1115, 10) == "1115";
    assert Numerals.ToBase(11155, 10) == "11155";
    assert Numerals.ToBase(111551, 10) == "111551";
    assert Numerals.ToBase(1115511, 10) == "1115511";
  }

  /** `networkId === REQUIRED_NETWORK_ID`, where `networkId` is `chainId.toString()`, holds
      exactly when the reported chain is Sepolia. */
  lemma CorrectNetworkIffSepolia(chainId: nat)
    ensures Numerals.Decimal(chainId) == RequiredNetworkId <==> chainId == RequiredChainId
  {
    RequiredChainIdPrintsAsRequiredNetworkId();
    Numerals.ToBaseInjective(chainId, RequiredChainId, 10);
  }

  /** The `chainId` parameter of `wallet_switchEthereumChain` and `wallet_addEthereumChain`:
      `"0x"` followed by `parseInt(REQUIRED_NETWORK_ID).toString(16)`. Section
      "Specification" of EIP-3326 asks for a 0x-prefixed hexadecimal string without leading
      zeros; this one is, and it reads back as the required chain id. */
  function RequiredChainHex(): (r: string)
    ensures r == "0xaa36a7"
    ensures |r| > 2 && r[..2] == "0x" && r[2] != '0'
    ensures Numerals.IsNumeral(r[2..], 16) && Numerals.FromBase(r[2..], 16) == RequiredChainId
  {
    RequiredNetworkIdParses();
    RequiredChainIdPrintsAsHex();
    Numerals.FromBaseToBase(RequiredChainId, 16);
    var r := "0x" + Numerals.Hex(Numerals.ParseDecimal(RequiredNetworkId));
    assert r[2..] == Numerals.Hex(RequiredChainId);
    r
  }

  /** `parseInt(REQUIRED_NETWORK_ID)` is the required chain id. */
  lemma RequiredNetworkIdParses()
    ensures Numerals.IsNumeral(RequiredNetworkId, 10)
    ensures Numerals.ParseDecimal(RequiredNetworkId) == RequiredChainId
  {
    Numerals.DecimalRoundTrip(RequiredChainId);
    RequiredChainIdPrintsAsRequiredNetworkId();
  }

  /** Proof that `Hex(11155111)` is `"aa36a7"`, one digit at a time. */
  lemma RequiredChainIdPrintsAsHex()
    ensures Numerals.Hex(RequiredChainId) == "aa36a7"
  {
    assert Numerals.ToBase(10, 16) == "a";
    assert Numerals.ToBase(170, 16) == "aa";
    assert Numerals.ToBase(2723, 16) == "aa3";
    assert Numerals.ToBase(43574, 16) == "aa36";
    assert Numerals.ToBase(697194, 16) == "aa36a";
  }

  /** The five chain ids `getNetworkName` knows by name. */
  predicate IsKnownChain(chainId: string) {
    chainId in {"1", "5", "11155111", "137", "80001"}
  }

  /** The prefix of the name shown for a chain id that is not in the table. */
  const FallbackPrefix := "Chain ID: "

  predicate IsFallbackName(name: string) {
    |name| >= |FallbackPrefix| && name[..|FallbackPrefix|] == FallbackPrefix
  }

  /** `getNetworkName`: the table's name for a known chain id, otherwise "Chain ID: " and the
      id itself, so the shown name always tells which kind of id it came from. */
  function GetNetworkName(chainId: string): (r: string)
    ensures r != ""
    ensures IsKnownChain(chainId) <==> !IsFallbackName(r)
    ensures IsFallbackName(r) ==> r[|FallbackPrefix|..] == chainId
    ensures chainId == RequiredNetworkId <==> r == "Sepolia Testnet"
  {
    var r :=
      if chainId == "1" then "Ethereum Mainnet"
      else if chainId == "5" then "Goerli Testnet"
      else if chainId == "11155111" then "Sepolia Testnet"
      else if chainId == "137" then "Polygon Mainnet"
      else if chainId == "80001" then "Mumbai Testnet"
      else FallbackPrefix + chainId;
    FallbackNameFirstChar(r);
    assert (FallbackPrefix + chainId)[..|FallbackPrefix|] == FallbackPrefix;
    r
  }

  lemma FallbackNameFirstChar(name: string)
    ensures IsFallbackName(name) ==> name[0] == 'C'
  {
    if IsFallbackName(name) {
      assert name[0] == name[..|FallbackPrefix|][0];
    }
  }

  /** Different chain ids are never shown under the same name. */
  lemma NetworkNameDeterminesChain(a: string, b: string)
    requires GetNetworkName(a) == GetNetworkName(b)
    ensures a == b
  {
    var n := GetNetworkName(a);
    if IsFallbackName(n) {
      assert a == n[|FallbackPrefix|..] == b;
    }
  }

  // ---------------------------------------------------------------------------------------
  // The provider's answers

  /** The provider's answers during `initializeWeb3`. */
  datatype InitAnswers = InitAnswers(
    provider: ProviderHandle,        // the new `BrowserProvider`
    accounts: Attempt<seq<string>>,  // `listAccounts()`, as the accounts' addresses
    signer: Attempt<SignerHandle>,   // `getSigner()`
    chainId: Attempt<nat>)           // `getNetwork()`, its `chainId`

  /** The provider's answers during `connectWallet`. */
  datatype ConnectAnswers = ConnectAnswers(
    provider: ProviderHandle,        // the new `BrowserProvider`
    request: Attempt<seq<string>>,   // `eth_requestAccounts`: may prompt, may be rejected
    signer: Attempt<SignerHandle>,   // `getSigner()`
    address: Attempt<string>,        // `signer.getAddress()`
    chainId: Attempt<nat>)           // `getNetwork()`, its `chainId`

  /** The wallet's answers during `switchNetwork`. */
  datatype SwitchAnswers = SwitchAnswers(
    switchChain: Attempt<()>,        // `wallet_switchEthereumChain`
    addChain: Attempt<()>,           // `wallet_addEthereumChain`, asked only after code 4902
    reinit: InitAnswers)             // the answers to the one re-initialization that may follow

  /** The metadata `wallet_addEthereumChain` is given (EIP-3085, section "Specification"). */
  datatype ChainParameters = ChainParameters(
    chainId: string,
    chainName: string,
    currencyName: string,
    currencySymbol: string,
    currencyDecimals: nat,
    rpcUrls: seq<string>,
    blockExplorerUrls: seq<string>)

  function SepoliaParameters(): ChainParameters {
    ChainParameters(RequiredChainHex(), "Sepolia Testnet", "ETH", "ETH", 18,
                    ["https://rpc.sepolia.org"], ["https://sepolia.etherscan.io"])
  }

  /** What `switchNetwork` does besides changing the session, in order. */
  datatype WalletEffect =
    | Alert(message: string)
    | SwitchChainRequest(chainId: string)
    | AddChainRequest(chain: ChainParameters)
    | Reinitialize

  // ---------------------------------------------------------------------------------------
  // The operations, as functions of the session snapshot

  /** The tail shared by `initializeWeb3` and `connectWallet`: read the network, record its
      name and whether it is the required one, and bind a contract to the signer. A thrown
      `getNetwork` skips all three. */
  function WithNetwork(s: SessionState, chainId: Attempt<nat>, signer: SignerHandle): SessionState {
    match chainId
    case Threw(_) => s
    case Returned(id) =>
      var networkId := Numerals.Decimal(id);
      s.(networkName := GetNetworkName(networkId),
         isCorrectNetwork := networkId == RequiredNetworkId,
         contract := Some(ContractHandle(ContractAddress, signer)))
  }

  /** `initializeWeb3`; `None` stands for a missing `window.ethereum`. */
  function Initialized(s: SessionState, wallet: Option<InitAnswers>): SessionState {
    match wallet
    case None => s
    case Some(w) =>
      var s1 := s.(provider := Some(w.provider));
      if w.accounts.Threw? || |w.accounts.value| == 0 || w.signer.Threw? then s1
      else
        var s2 := s1.(signer := Some(w.signer.value), account := Some(w.accounts.value[0]),
                      connected := true);
        WithNetwork(s2, w.chainId, w.signer.value)
  }

  /** `connectWallet`; `None` stands for a missing `window.ethereum` (only an alert). */
  function Connected(s: SessionState, wallet: Option<ConnectAnswers>): SessionState {
    match wallet
    case None => s
    case Some(w) =>
      if w.request.Threw? || w.signer.Threw? || w.address.Threw? then s
      else
        var s1 := s.(provider := Some(w.provider), signer := Some(w.signer.value),
                     account := Some(w.address.value), connected := true);
        WithNetwork(s1, w.chainId, w.signer.value)
  }

  /** `disconnectWallet`: forgets the connection, the account, the signer and the contract;
      the provider, the network name and the network flag are left as they were. */
  function Disconnected(s: SessionState): (r: SessionState)
    ensures !r.connected && r.account.None? && r.signer.None? && r.contract.None?
    ensures r.provider == s.provider && r.networkName == s.networkName
    ensures r.isCorrectNetwork == s.isCorrectNetwork
  {
    s.(connected := false, account := None, signer := None, contract := None)
  }

  /** `handleAccountsChanged`: the exact string `accounts[0] !== account` decides whether to
      re-initialize; no case is normalized. */
  function AccountsChanged(s: SessionState, accounts: seq<string>, reinit: InitAnswers): SessionState {
    if |accounts| == 0 then Disconnected(s)
    else if s.account != Some(accounts[0]) then Initialized(s, Some(reinit))
    else s
  }

  /** The new session and the effects of `switchNetwork`. */
  datatype SwitchRun = SwitchRun(state: SessionState, effects: seq<WalletEffect>)

  /** `switchNetwork`: one switch request; on success one re-initialization; on code 4902 one
      add-chain request, followed by one re-initialization if the wallet accepts it. */
  function SwitchNetworkRun(s: SessionState, wallet: Option<SwitchAnswers>): SwitchRun {
    match wallet
    case None => SwitchRun(s, [Alert(InstallWalletMessage)])
    case Some(w) =>
      var switchRequest := SwitchChainRequest(RequiredChainHex());
      match w.switchChain
      case Returned(_) => SwitchRun(Initialized(s, Some(w.reinit)), [switchRequest, Reinitialize])
      case Threw(e) =>
        if e.code != UnrecognizedChainCode then SwitchRun(s, [switchRequest])
        else
          var addRequest := AddChainRequest(SepoliaParameters());
          match w.addChain
          case Returned(_) =>
            SwitchRun(Initialized(s, Some(w.reinit)), [switchRequest, addRequest, Reinitialize])
          case Threw(_) => SwitchRun(s, [switchRequest, addRequest])
  }

  // ---------------------------------------------------------------------------------------
  // What the operations promise

  lemma InitializedKeepsInvariant(s: SessionState, wallet: Option<InitAnswers>)
    requires SessionInvariant(s)
    ensures SessionInvariant(Initialized(s, wallet))
  {
  }

  lemma ConnectedKeepsInvariant(s: SessionState, wallet: Option<ConnectAnswers>)
    requires SessionInvariant(s)
    ensures SessionInvariant(Connected(s, wallet))
  {
  }

  lemma AccountsChangedKeepsInvariant(s: SessionState, accounts: seq<string>, reinit: InitAnswers)
    requires SessionInvariant(s)
    ensures SessionInvariant(AccountsChanged(s, accounts, reinit))
  {
  }

  lemma SwitchKeepsInvariant(s: SessionState, wallet: Option<SwitchAnswers>)
    requires SessionInvariant(s)
    ensures SessionInvariant(SwitchNetworkRun(s, wallet).state)
  {
  }

  /** Without a provider, or when no account is authorized (or the list or the signer cannot
      be had), `initializeWeb3` leaves the connection, account, signer, contract and network
      fields as they were; only the new provider is recorded. */
  lemma InitializeWithoutAccountKeepsSession(s: SessionState, wallet: Option<InitAnswers>)
    requires wallet.None? || wallet.value.accounts.Threw? || wallet.value.accounts.value == []
             || wallet.value.signer.Threw?
    ensures Initialized(s, wallet).(provider := s.provider) == s
    ensures wallet.Some? ==> Initialized(s, wallet).provider == Some(wallet.value.provider)
  {
  }

  /** With an authorized account and a signer, `initializeWeb3` connects to the first account
      listed, exactly as the provider spells it, with that signer; once the network is read
      the flag says whether it is Sepolia and the contract is bound to the new signer. */
  lemma InitializeTakesFirstAccount(s: SessionState, w: InitAnswers)
    requires w.accounts.Returned? && w.accounts.value != [] && w.signer.Returned?
    ensures var r := Initialized(s, Some(w));
      && r.connected && r.account == Some(w.accounts.value[0])
      && r.signer == Some(w.signer.value) && r.provider == Some(w.provider)
      && (w.chainId.Returned? ==>
            && (r.isCorrectNetwork <==> w.chainId.value == RequiredChainId)
            && r.networkName == GetNetworkName(Numerals.Decimal(w.chainId.value))
            && r.contract == Some(ContractHandle(ContractAddress, w.signer.value)))
  {
    if w.chainId.Returned? {
      CorrectNetworkIffSepolia(w.chainId.value);
    }
  }

  /** If the account request, `getSigner` or `getAddress` fails, or there is no provider,
      `connectWallet` changes no session field: all of them precede the first setter. */
  lemma ConnectFailureKeepsSession(s: SessionState, wallet: Option<ConnectAnswers>)
    requires wallet.None? || wallet.value.request.Threw? || wallet.value.signer.Threw?
             || wallet.value.address.Threw?
    ensures Connected(s, wallet) == s
  {
  }

  /** A successful `connectWallet` connects to the signer's address verbatim; once the
      network is read the flag says whether it is Sepolia. */
  lemma ConnectUsesSignerAddress(s: SessionState, w: ConnectAnswers)
    requires w.request.Returned? && w.signer.Returned? && w.address.Returned?
    ensures var r := Connected(s, Some(w));
      && r.connected && r.account == Some(w.address.value)
      && r.signer == Some(w.signer.value) && r.provider == Some(w.provider)
      && (w.chainId.Returned? ==>
            && (r.isCorrectNetwork <==> w.chainId.value == RequiredChainId)
            && r.contract == Some(ContractHandle(ContractAddress, w.signer.value)))
  {
    if w.chainId.Returned? {
      CorrectNetworkIffSepolia(w.chainId.value);
    }
  }

  /** The updates are not atomic: when `getNetwork` throws after the new signer and account
      are set, the contract handle from before stays, bound to the previous signer, and the
      network name and flag keep the values read for the previous session. */
  lemma NetworkErrorKeepsPreviousContract(s: SessionState, w: InitAnswers)
    requires w.accounts.Returned? && w.accounts.value != [] && w.signer.Returned?
    requires w.chainId.Threw?
    ensures Initialized(s, Some(w)).contract == s.contract
    ensures Initialized(s, Some(w)).signer == Some(w.signer.value)
    ensures Initialized(s, Some(w)).account == Some(w.accounts.value[0])
    ensures Initialized(s, Some(w)).isCorrectNetwork == s.isCorrectNetwork
    ensures Initialized(s, Some(w)).networkName == s.networkName
  {
  }

  /** Disconnecting only forgets locally: a later `initializeWeb3` against a wallet that still
      lists an authorized account connects again. */
  lemma ReinitializeUndoesDisconnect(s: SessionState, w: InitAnswers)
    requires w.accounts.Returned? && w.accounts.value != [] && w.signer.Returned?
    ensures Initialized(Disconnected(s), Some(w)).connected
  {
  }

  /** `handleAccountsChanged`: an empty list disconnects whatever the prior state; a first
      account equal to the current one changes nothing; a different one (an exact,
      case-sensitive comparison) re-initializes. */
  lemma AccountsChangedCases(s: SessionState, accounts: seq<string>, reinit: InitAnswers)
    ensures accounts == [] ==> !AccountsChanged(s, accounts, reinit).connected
    ensures accounts == [] ==> AccountsChanged(s, accounts, reinit) == Disconnected(s)
    ensures accounts != [] && s.account == Some(accounts[0]) ==> AccountsChanged(s, accounts, reinit) == s
    ensures accounts != [] && s.account != Some(accounts[0]) ==>
              AccountsChanged(s, accounts, reinit) == Initialized(s, Some(reinit))
  {
  }

  /** `switchNetwork` asks to switch exactly once and never retries; it asks to add the chain
      at most once, exactly when the switch failed with code 4902; it re-initializes at most
      once, as its last step, exactly when the switch or the add succeeded, and otherwise
      leaves the session as it was. Every request names the required chain. */
  lemma SwitchNetworkAttemptsOnce(s: SessionState, wallet: Option<SwitchAnswers>)
    ensures var run := SwitchNetworkRun(s, wallet);
      && (wallet.None? ==> run.effects == [Alert(InstallWalletMessage)] && run.state == s)
      && (wallet.Some? ==>
            && run.effects != [] && run.effects[0] == SwitchChainRequest("0xaa36a7")
            && multiset(run.effects)[SwitchChainRequest("0xaa36a7")] == 1
            && multiset(run.effects)[AddChainRequest(SepoliaParameters())] <= 1
            && multiset(run.effects)[Reinitialize] <= 1
            && (AddChainRequest(SepoliaParameters()) in run.effects <==>
                  wallet.value.switchChain.Threw?
                  && wallet.value.switchChain.error.code == UnrecognizedChainCode)
            && (Reinitialize in run.effects <==>
                  || wallet.value.switchChain.Returned?
                  || (wallet.value.switchChain.error.code == UnrecognizedChainCode
                      && wallet.value.addChain.Returned?))
            && (Reinitialize in run.effects ==>
                  run.effects[|run.effects| - 1] == Reinitialize
                  && run.state == Initialized(s, Some(wallet.value.reinit)))
            && (Reinitialize !in run.effects ==> run.state == s))
  {
  }

  /** The network banner's condition: shown exactly when a connected session is on another
      network than Sepolia. */
  predicate ShowsNetworkBanner(s: SessionState) {
    s.connected && !s.isCorrectNetwork
  }

  /** Disconnecting hides the banner; a switch that succeeds and whose re-initialization
      reads Sepolia hides it too. */
  lemma SwitchToSepoliaHidesBanner(s: SessionState, w: SwitchAnswers)
    requires w.switchChain.Returned?
    requires w.reinit.accounts.Returned? && w.reinit.accounts.value != [] && w.reinit.signer.Returned?
    requires w.reinit.chainId == Returned(RequiredChainId)
    ensures !ShowsNetworkBanner(Disconnected(s))
    ensures !ShowsNetworkBanner(SwitchNetworkRun(s, Some(w)).state)
  {
    InitializeTakesFirstAccount(s, w.reinit);
  }

  // ---------------------------------------------------------------------------------------
  // The session itself

  /** The state a `Web3Provider` holds, updated in place by its operations. */
  class Web3Session {
    var connected: bool
    var account: Option<string>
    var provider: Option<ProviderHandle>
    var signer: Option<SignerHandle>
    var contract: Option<ContractHandle>
    var networkName: string
    var isCorrectNetwork: bool

    function State(): SessionState
      reads this
    {
      SessionState(connected, account, provider, signer, contract, networkName, isCorrectNetwork)
    }

    predicate Valid()
      reads this
    {
      SessionInvariant(State())
    }

    constructor ()
      ensures State() == InitialState && Valid()
    {
      connected, account, provider, signer, contract := false, None, None, None, None;
      networkName, isCorrectNetwork := "", false;
    }

    /** The shared tail of `initializeWeb3` and `connectWallet`. */
    method ReadNetwork(chainId: Attempt<nat>, signerInstance: SignerHandle)
      modifies this
      ensures State() == WithNetwork(old(State()), chainId, signerInstance)
    {
      match chainId
      case Threw(_) =>
      case Returned(id) =>
        var networkId := Numerals.Decimal(id);
        networkName := GetNetworkName(networkId);
        isCorrectNetwork := networkId == RequiredNetworkId;
        contract := Some(ContractHandle(ContractAddress, signerInstance));
    }

    method InitializeWeb3(wallet: Option<InitAnswers>)
      requires Valid()
      modifies this
      ensures Valid()
      ensures State() == Initialized(old(State()), wallet)
    {
      InitializedKeepsInvariant(State(), wallet);
      if wallet.Some? {
        var w := wallet.value;
        provider := Some(w.provider);
        match w.accounts
        case Threw(_) =>
        case Returned(accounts) =>
          if |accounts| > 0 {
            match w.signer
            case Threw(_) =>
            case Returned(signerInstance) =>
              signer := Some(signerInstance);
              account := Some(accounts[0]);
              connected := true;
              ReadNetwork(w.chainId, signerInstance);
          }
      }
    }

    /** Returns whether the "install a wallet" alert was shown. */
    method ConnectWallet(wallet: Option<ConnectAnswers>) returns (alerted: bool)
      requires Valid()
      modifies this
      ensures Valid()
      ensures alerted <==> wallet.None?
      ensures State() == Connected(old(State()), wallet)
    {
      ConnectedKeepsInvariant(State(), wallet);
      alerted := wallet.None?;
      if wallet.Some? {
        var w := wallet.value;
        if w.request.Returned? && w.signer.Returned? && w.address.Returned? {
          var signerInstance, address := w.signer.value, w.address.value;
          provider := Some(w.provider);
          signer := Some(signerInstance);
          account := Some(address);
          connected := true;
          ReadNetwork(w.chainId, signerInstance);
        }
      }
    }

    method DisconnectWallet()
      requires Valid()
      modifies this
      ensures Valid()
      ensures State() == Disconnected(old(State()))
    {
      connected := false;
      account := None;
      signer := None;
      contract := None;
    }

    /** Returns the alert, requests and re-initialization it performed, in order. */
    method SwitchNetwork(wallet: Option<SwitchAnswers>) returns (effects: seq<WalletEffect>)
      requires Valid()
      modifies this
      ensures Valid()
      ensures State() == SwitchNetworkRun(old(State()), wallet).state
      ensures effects == SwitchNetworkRun(old(State()), wallet).effects
    {
      if wallet.None? {
        effects := [Alert(InstallWalletMessage)];
        return;
      }
      var w := wallet.value;
      effects := [SwitchChainRequest(RequiredChainHex())];
      match w.switchChain
      case Returned(_) =>
        effects := effects + [Reinitialize];
        InitializeWeb3(Some(w.reinit));
      case Threw(error) =>
        if error.code == UnrecognizedChainCode {
          effects := effects + [AddChainRequest(SepoliaParameters())];
          match w.addChain
          case Returned(_) =>
            effects := effects + [Reinitialize];
            InitializeWeb3(Some(w.reinit));
          case Threw(_) =>
        }
    }

    /** The `accountsChanged` listener. */
    method HandleAccountsChanged(accounts: seq<string>, reinit: InitAnswers)
      requires Valid()
      modifies this
      ensures Valid()
      ensures State() == AccountsChanged(old(State()), accounts, reinit)
    {
      if |accounts| == 0 {
        DisconnectWallet();
      } else if account != Some(accounts[0]) {
        InitializeWeb3(Some(reinit));
      }
    }
  }
}
