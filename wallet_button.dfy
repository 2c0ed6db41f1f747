/** The wallet button in the navigation bar: the shortened address, the dropdown flag and
    its handlers, and which controls it offers. */
module WalletButton {
  import opened Wrappers
  import Strings
  import Web3Context

  /** `formatAddress`: `address.substring(0, 6) + "..." + address.substring(address.length - 4)`.
      The first min(6, n) characters, then "...", then the last min(4, n) characters (a
      negative start is clamped to 0); a full 42-character address, or any of at least 10
      characters, gives 13. */
  function FormatAddress(address: string): (r: string)
    ensures var head, tail := Strings.Min(6, |address|), Strings.Min(4, |address|);
      && |r| == head + 3 + tail
      && r[..head] == address[..head]
      && r[head..head + 3] == "..."
      && r[head + 3..] == address[|address| - tail..]
    ensures |address| >= 10 ==> |r| == 13
  {
    Strings.Substring(address, 0, 6) + "..." + Strings.Substring(address, |address| - 4, |address|)
  }

  /** The controls the button renders. */
  datatype Control =
    | ConnectWalletButton
    | AccountButton(caption: string)
    | SwitchNetworkOption
    | DisconnectOption

  /** `account && formatAddress(account)`: a missing or empty account shows no label. */
  function AccountLabel(account: Option<string>): string {
    if account.Some? && account.value != "" then FormatAddress(account.value) else ""
  }

  /** What the button offers: disconnected, only "Connect Wallet"; connected, the account
      button, and when the dropdown is open "Switch Network" exactly on the wrong network,
      then "Disconnect". */
  function Controls(connected: bool, account: Option<string>, isDropdownOpen: bool,
                    isCorrectNetwork: bool): (r: seq<Control>)
    ensures !connected ==> r == [ConnectWalletButton]
    ensures connected ==> ConnectWalletButton !in r && r != [] && r[0] == AccountButton(AccountLabel(account))
    ensures connected && isDropdownOpen ==>
      DisconnectOption in r && (SwitchNetworkOption in r <==> !isCorrectNetwork)
    ensures !isDropdownOpen ==> SwitchNetworkOption !in r && DisconnectOption !in r
  {
    if !connected then [ConnectWalletButton]
    else
      [AccountButton(AccountLabel(account))]
      + if !isDropdownOpen then []
        else (if !isCorrectNetwork then [SwitchNetworkOption] else []) + [DisconnectOption]
  }

  /** On a connected session with the menu open, "Switch Network" is offered exactly when the
      network banner is shown. */
  lemma SwitchOfferedIffBannerShown(s: Web3Context.SessionState)
    requires s.connected
    ensures var offered := Controls(s.connected, s.account, true, s.isCorrectNetwork);
      SwitchNetworkOption in offered <==> Web3Context.ShowsNetworkBanner(s)
  {
  }

  /** The button's `isDropdownOpen` state and its click handlers. */
  class WalletButtonState {
    var isDropdownOpen: bool

    constructor ()
      ensures !isDropdownOpen
    {
      isDropdownOpen := false;
    }

    /** `toggleDropdown`. */
    method ToggleDropdown()
      modifies this
      ensures isDropdownOpen == !old(isDropdownOpen)
    {
      isDropdownOpen := !isDropdownOpen;
    }

    /** A click anywhere in the open menu closes it. */
    method CloseMenu()
      modifies this
      ensures !isDropdownOpen
    {
      isDropdownOpen := false;
    }

    /** `handleDisconnect`: disconnects the session, then closes the dropdown. */
    method HandleDisconnect(session: Web3Context.Web3Session)
      requires session.Valid()
      modifies this, session
      ensures session.Valid()
      ensures session.State() == Web3Context.Disconnected(old(session.State()))
      ensures !isDropdownOpen
    {
      session.DisconnectWallet();
      isDropdownOpen := false;
    }

    /** `handleSwitchNetwork`: runs the session's network switch, then closes the dropdown. */
    method HandleSwitchNetwork(session: Web3Context.Web3Session, wallet: Option<Web3Context.SwitchAnswers>)
      returns (effects: seq<Web3Context.WalletEffect>)
      requires session.Valid()
      modifies this, session
      ensures session.Valid()
      ensures session.State() == Web3Context.SwitchNetworkRun(old(session.State()), wallet).state
      ensures effects == Web3Context.SwitchNetworkRun(old(session.State()), wallet).effects
      ensures !isDropdownOpen
    {
      effects := session.SwitchNetwork(wallet);
      isDropdownOpen := false;
    }
  }
}
