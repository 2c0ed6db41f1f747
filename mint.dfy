/** The mint page: the attribute-list editor, the metadata record it builds, and the mint
    run with its guard, its status transitions and the token id read from the receipt.

    The contract call and the receipt are parameters (`MintAnswers`); `Date.now()` is the
    parameter `now`; the metadata is a record rather than its JSON text. */
module Mint {
  import opened Wrappers
  import opened Types
  import Strings
  import Numerals

  const DefaultNamePrefix := "DNA Identity #"
  const DefaultDescription := "A DNA Identity NFT secured on the blockchain"
  const DefaultImage := "https://images.pexels.com/" + "photos/356040/pexels-photo-356040.jpeg"
                        + "?auto=compress&cs=tinysrgb&w=1260&h=750&dpr=2"

  /** The two rows the form starts with. */
  const InitialAttributes := [Attribute("Source", ""), Attribute("Type", "")]

  /** The row "+ Add Attribute" appends. */
  const BlankAttribute := Attribute("", "")

  /** The event whose `tokenId` names the minted token. */
  const TransferEvent := "Transfer"

  // ---------------------------------------------------------------------------------------
  // The attribute list

  /** The two editable fields of a row. */
  datatype AttributeField = TraitType | Value

  /** `attr[field] = value`. */
  function WithField(a: Attribute, field: AttributeField, value: string): Attribute {
    match field
    case TraitType => a.(traitType := value)
    case Value => a.(value := value)
  }

  /** `s.splice(index, 1)`: JavaScript counts a negative index from the end (stopping at 0)
      and removes nothing when the index is at or past the end. */
  function SpliceOne(s: seq<Attribute>, index: int): (r: seq<Attribute>)
    ensures 0 <= index < |s| ==> r == s[..index] + s[index + 1..]
    ensures -|s| <= index < 0 ==> r == s[..|s| + index] + s[|s| + index + 1..]
    ensures index >= |s| ==> r == s
    ensures |r| == if index < |s| && s != [] then |s| - 1 else |s|
  {
    var start := if index < 0 then (if |s| + index < 0 then 0 else |s| + index)
                 else if index > |s| then |s| else index;
    if start < |s| then s[..start] + s[start + 1..] else s
  }

  /** An attribute row the metadata keeps: both fields are non-blank after trimming. */
  predicate IsFilled(a: Attribute) {
    !Strings.IsBlank(a.traitType) && !Strings.IsBlank(a.value)
  }

  /** `attributes.filter(...)` in `generateTokenURI`: the filled rows, in their order. */
  function FilledAttributes(attributes: seq<Attribute>): (r: seq<Attribute>)
    ensures |r| <= |attributes|
  {
    if attributes == [] then []
    else (if IsFilled(attributes[0]) then [attributes[0]] else []) + FilledAttributes(attributes[1..])
  }

  /** The filter keeps a row exactly when the row is filled. */
  lemma {:induction false} FilledAttributesMembers(attributes: seq<Attribute>)
    ensures forall a :: a in FilledAttributes(attributes) <==> a in attributes && IsFilled(a)
    decreases |attributes|
  {
    if attributes != [] {
      FilledAttributesMembers(attributes[1..]);
      assert attributes == [attributes[0]] + attributes[1..];
    }
  }

  /** The filter works row by row: filtering a concatenation concatenates the filtered parts,
      so the kept rows keep their relative order. */
  lemma {:induction false} FilledAttributesOfConcat(s: seq<Attribute>, t: seq<Attribute>)
    ensures FilledAttributes(s + t) == FilledAttributes(s) + FilledAttributes(t)
    decreases |s|
  {
    if s == [] {
      assert s + t == t;
    } else {
      var head := if IsFilled(s[0]) then [s[0]] else [];
      assert (s + t)[0] == s[0];
      assert (s + t)[1..] == s[1..] + t;
      FilledAttributesOfConcat(s[1..], t);
      assert FilledAttributes(s + t) == head + (FilledAttributes(s[1..]) + FilledAttributes(t));
      assert FilledAttributes(s) == head + FilledAttributes(s[1..]);
    }
  }

  /** A list whose rows are all filled passes the filter unchanged. */
  lemma {:induction false} FilledAttributesKeepsFilledList(s: seq<Attribute>)
    requires forall i :: 0 <= i < |s| ==> IsFilled(s[i])
    ensures FilledAttributes(s) == s
    decreases |s|
  {
    if s != [] {
      FilledAttributesKeepsFilledList(s[1..]);
    }
  }

  // ---------------------------------------------------------------------------------------
  // The metadata record

  /** The form's input fields. */
  datatype FormInput = FormInput(
    dnaHash: string,
    name: string,
    description: string,
    imageUrl: string,
    attributes: seq<Attribute>)

  /** The object `generateTokenURI` serializes. */
  datatype MintMetadata = MintMetadata(
    name: string,
    description: string,
    image: string,
    attributes: seq<Attribute>,
    dnaHash: string)

  /** `generateTokenURI`, with `Date.now()` as `now`: each text field falls back to its
      default exactly when the input is blank, and is otherwise the input as typed (not
      trimmed); so no text field of the metadata is ever blank. The attributes are the
      filled rows and the hash is copied verbatim. */
  function GenerateMetadata(form: FormInput, now: nat): (m: MintMetadata)
    ensures Strings.IsBlank(form.name) ==> m.name == DefaultNamePrefix + Numerals.Decimal(now)
    ensures !Strings.IsBlank(form.name) ==> m.name == form.name
    ensures Strings.IsBlank(form.description) ==> m.description == DefaultDescription
    ensures !Strings.IsBlank(form.description) ==> m.description == form.description
    ensures Strings.IsBlank(form.imageUrl) ==> m.image == DefaultImage
    ensures !Strings.IsBlank(form.imageUrl) ==> m.image == form.imageUrl
    ensures !Strings.IsBlank(m.name) && !Strings.IsBlank(m.description) && !Strings.IsBlank(m.image)
    ensures m.attributes == FilledAttributes(form.attributes)
    ensures m.dnaHash == form.dnaHash
  {
    var defaultName := DefaultNamePrefix + Numerals.Decimal(now);
    Strings.NotBlankWhenFirstIsVisible(defaultName);
    assert DefaultDescription[0] == 'A' && DefaultImage[0] == 'h';
    Strings.NotBlankWhenFirstIsVisible(DefaultDescription);
    Strings.NotBlankWhenFirstIsVisible(DefaultImage);
    MintMetadata(
      if !Strings.IsBlank(form.name) then form.name else defaultName,
      if !Strings.IsBlank(form.description) then form.description else DefaultDescription,
      if !Strings.IsBlank(form.imageUrl) then form.imageUrl else DefaultImage,
      FilledAttributes(form.attributes),
      form.dnaHash)
  }

  // ---------------------------------------------------------------------------------------
  // The token id in the receipt

  /** What `contract.interface.parseLog(log)` gives for one receipt log: it throws, it finds
      no matching event (null), or it names an event and its `tokenId` argument. */
  datatype ParsedLog = ParseThrew | NoMatchingEvent | ParsedEvent(name: string, tokenId: nat)

  predicate IsTransfer(l: ParsedLog) {
    l.ParsedEvent? && l.name == TransferEvent
  }

  /** The token id of the first log that parses as a Transfer event. */
  function FirstTransfer(logs: seq<ParsedLog>): Option<nat> {
    if logs == [] then None
    else if IsTransfer(logs[0]) then Some(logs[0].tokenId)
    else FirstTransfer(logs[1..])
  }

  /** `FirstTransfer` finds a Transfer exactly when there is one, and then it is the first:
      every earlier log failed to parse or named another event. */
  lemma {:induction false} FirstTransferIsFirst(logs: seq<ParsedLog>)
    ensures FirstTransfer(logs).None? <==> forall i :: 0 <= i < |logs| ==> !IsTransfer(logs[i])
    ensures FirstTransfer(logs).Some? ==>
      exists i :: 0 <= i < |logs| && IsTransfer(logs[i]) && logs[i].tokenId == FirstTransfer(logs).value
        && forall j :: 0 <= j < i ==> !IsTransfer(logs[j])
    decreases |logs|
  {
    if logs != [] && !IsTransfer(logs[0]) {
      FirstTransferIsFirst(logs[1..]);
      if FirstTransfer(logs).Some? {
        var i :| 0 <= i < |logs[1..]| && IsTransfer(logs[1..][i])
                 && logs[1..][i].tokenId == FirstTransfer(logs).value
                 && forall j :: 0 <= j < i ==> !IsTransfer(logs[1..][j]);
        assert IsTransfer(logs[i + 1]);
        assert forall j :: 0 <= j < i + 1 ==> !IsTransfer(logs[j]) by {
          forall j | 0 <= j < i + 1 ensures !IsTransfer(logs[j]) {
            if j > 0 { assert logs[j] == logs[1..][j - 1]; }
          }
        }
      } else {
        forall i | 0 <= i < |logs| ensures !IsTransfer(logs[i]) {
          if i > 0 { assert logs[i] == logs[1..][i - 1]; }
        }
      }
    } else if logs != [] {
      assert IsTransfer(logs[0]);
    }
  }

  /** The loop over `receipt.logs`: skips logs that fail to parse, stops at the first
      Transfer. */
  method FindTokenId(logs: seq<ParsedLog>) returns (tokenId: Option<nat>)
    ensures tokenId == FirstTransfer(logs)
  {
    tokenId := None;
    for i := 0 to |logs|
      invariant tokenId.None?
      invariant FirstTransfer(logs[i..]) == FirstTransfer(logs)
    {
      assert logs[i..][1..] == logs[i + 1..];
      match logs[i]
      case ParseThrew =>
        continue;
      case NoMatchingEvent =>
      case ParsedEvent(name, id) =>
        if name == TransferEvent {
          tokenId := Some(id);
          break;
        }
    }
  }

  /** Where the page navigates after a successful mint: `/token/<id>` when an id was found,
      else `/gallery`. The id is a BigInt tested for truthiness, so id 0 also goes to the
      gallery. The token path reads back as the id. */
  function RedirectPath(tokenId: Option<nat>): (r: string)
    ensures r == "/gallery" <==> tokenId.None? || tokenId.value == 0
    ensures r != "/gallery" ==>
      |r| > 7 && r[..7] == "/token/" && Numerals.IsNumeral(r[7..], 10)
      && Numerals.ParseDecimal(r[7..]) == tokenId.value
  {
    if tokenId.Some? && tokenId.value != 0 then
      var r := "/token/" + Numerals.Decimal(tokenId.value);
      Numerals.DecimalRoundTrip(tokenId.value);
      assert r[1] == 't' && r[7..] == Numerals.Decimal(tokenId.value);
      r
    else "/gallery"
  }

  // ---------------------------------------------------------------------------------------
  // The mint run

  /** What the page reads from the session before minting. */
  datatype SessionView = SessionView(connected: bool, hasContract: bool, isCorrectNetwork: bool)

  /** The ledger's answers: `mintDNAIdentity` gives the transaction (its hash), `tx.wait()`
      gives the receipt, seen as its parsed logs. */
  datatype MintAnswers = MintAnswers(submission: Attempt<string>, receipt: Attempt<seq<ParsedLog>>)

  /** The arguments of `contract.mintDNAIdentity`. */
  datatype MintCall = MintCall(dnaHash: string, metadata: MintMetadata)

  /** Everything one `mintNFT` does: whether it alerted, the call it sent, each status it set
      in order, and where it navigates afterwards. */
  datatype MintRun = MintRun(
    alerted: bool,
    call: Option<MintCall>,
    statuses: seq<TransactionStatus>,
    redirect: Option<string>)

  function Pending(hash: Option<string>): TransactionStatus {
    TransactionStatus(StatusPending, hash, None)
  }

  function Failed(message: string): TransactionStatus {
    TransactionStatus(StatusError, None, Some(message))
  }

  function Succeeded(hash: string): TransactionStatus {
    TransactionStatus(StatusSuccess, Some(hash), None)
  }

  /** The guard `connected && contract && isCorrectNetwork`. */
  predicate MayMint(view: SessionView) {
    view.connected && view.hasContract && view.isCorrectNetwork
  }

  /** `mintNFT`. */
  function MintNFTRun(view: SessionView, form: FormInput, answers: MintAnswers, now: nat): MintRun {
    if !MayMint(view) then MintRun(false, None, [], None)
    else if Strings.IsBlank(form.dnaHash) then MintRun(true, None, [], None)
    else SubmittedRun(MintCall(form.dnaHash, GenerateMetadata(form, now)), answers)
  }

  /** The part of `mintNFT` inside its `try`, once the call's arguments are built. */
  function SubmittedRun(call: MintCall, answers: MintAnswers): MintRun {
    match answers.submission
    case Threw(e) => MintRun(false, Some(call), [Pending(None), Failed(e.message)], None)
    case Returned(hash) =>
      match answers.receipt
      case Threw(e) => MintRun(false, Some(call), [Pending(None), Pending(Some(hash)), Failed(e.message)], None)
      case Returned(logs) =>
        MintRun(false, Some(call), [Pending(None), Pending(Some(hash)), Succeeded(hash)],
                Some(RedirectPath(FirstTransfer(logs))))
  }

  /** Without a connected session, a contract and the right network, `mintNFT` does nothing;
      with them but a blank hash, it only alerts: no transaction, no status change. */
  lemma MintGuards(view: SessionView, form: FormInput, answers: MintAnswers, now: nat)
    ensures !MayMint(view) ==> MintNFTRun(view, form, answers, now) == MintRun(false, None, [], None)
    ensures MayMint(view) && Strings.IsBlank(form.dnaHash) ==>
              MintNFTRun(view, form, answers, now) == MintRun(true, None, [], None)
  {
  }

  /** A transaction is sent exactly when the guard passes and the hash is not blank; it
      carries the hash as typed and the metadata `generateTokenURI` builds, and the first
      status set is `pending` without a hash. */
  lemma MintSendsCall(view: SessionView, form: FormInput, answers: MintAnswers, now: nat)
    ensures MintNFTRun(view, form, answers, now).call.Some? <==>
              MayMint(view) && !Strings.IsBlank(form.dnaHash)
    ensures MayMint(view) && !Strings.IsBlank(form.dnaHash) ==>
              var run := MintNFTRun(view, form, answers, now);
              && run.call == Some(MintCall(form.dnaHash, GenerateMetadata(form, now)))
              && run.statuses != [] && run.statuses[0] == Pending(None)
  {
    if MayMint(view) && !Strings.IsBlank(form.dnaHash) {
      match answers.submission
      case Threw(_) =>
      case Returned(_) =>
        match answers.receipt
        case Threw(_) =>
        case Returned(_) =>
    }
  }

  /** A run that gets its receipt goes from `pending` to `pending` with the transaction hash
      and ends `success` with that same hash, then navigates by the first Transfer log. */
  lemma MintSuccessStatuses(view: SessionView, form: FormInput, answers: MintAnswers, now: nat)
    requires MayMint(view) && !Strings.IsBlank(form.dnaHash)
    requires answers.submission.Returned? && answers.receipt.Returned?
    ensures var run := MintNFTRun(view, form, answers, now);
      var hash := answers.submission.value;
      && run.statuses == [Pending(None), Pending(Some(hash)), Succeeded(hash)]
      && run.redirect == Some(RedirectPath(FirstTransfer(answers.receipt.value)))
  {
  }

  /** Any thrown error ends the run in `error` with the error's message, and nothing is
      navigated to. */
  lemma MintErrorStatus(view: SessionView, form: FormInput, answers: MintAnswers, now: nat)
    requires MayMint(view) && !Strings.IsBlank(form.dnaHash)
    requires answers.submission.Threw? || answers.receipt.Threw?
    ensures var run := MintNFTRun(view, form, answers, now);
      var message :=
        if answers.submission.Threw? then answers.submission.error.message
        else answers.receipt.error.message;
      && run.statuses != [] && run.statuses[|run.statuses| - 1] == Failed(message)
      && run.redirect.None?
  {
  }

  /** The "Mint DNA Identity NFT" button's `disabled` expression. */
  predicate MintButtonDisabled(view: SessionView, status: TransactionStatus, dnaHash: string) {
    !view.connected || !view.isCorrectNetwork || status.status == StatusPending
    || Strings.IsBlank(dnaHash)
  }

  /** An enabled button on a page whose session holds a contract sends a transaction. */
  lemma EnabledButtonSends(view: SessionView, status: TransactionStatus, form: FormInput,
                           answers: MintAnswers, now: nat)
    requires !MintButtonDisabled(view, status, form.dnaHash) && view.hasContract
    ensures MintNFTRun(view, form, answers, now).call.Some?
  {
  }

  // ---------------------------------------------------------------------------------------
  // The page's state

  /** The state the mint page holds and its handlers update. */
  class MintPage {
    var dnaHash: string
    var name: string
    var description: string
    var imageUrl: string
    var attributes: seq<Attribute>
    var transactionStatus: TransactionStatus

    function Form(): FormInput
      reads this`dnaHash, this`name, this`description, this`imageUrl, this`attributes
    {
      FormInput(dnaHash, name, description, imageUrl, attributes)
    }

    /** The attribute list is never empty. */
    predicate Valid()
      reads this
    {
      |attributes| >= 1
    }

    constructor ()
      ensures Valid()
      ensures Form() == FormInput("", "", "", "", InitialAttributes)
      ensures transactionStatus == TransactionStatus(StatusNone, None, None)
    {
      dnaHash, name, description, imageUrl := "", "", "", "";
      attributes := InitialAttributes;
      transactionStatus := TransactionStatus(StatusNone, None, None);
    }

    /** `handleAttributeChange`: only the chosen field of the chosen row changes. */
    method HandleAttributeChange(index: nat, field: AttributeField, value: string)
      requires Valid() && index < |attributes|
      modifies this`attributes
      ensures Valid()
      ensures |attributes| == |old(attributes)|
      ensures forall j :: 0 <= j < |attributes| && j != index ==> attributes[j] == old(attributes[j])
      ensures field == TraitType ==>
        attributes[index].traitType == value && attributes[index].value == old(attributes[index].value)
      ensures field == Value ==>
        attributes[index].value == value && attributes[index].traitType == old(attributes[index].traitType)
    {
      var newAttributes := attributes;
      newAttributes := newAttributes[index := WithField(newAttributes[index], field, value)];
      attributes := newAttributes;
    }

    /** `addAttribute`: one blank row at the end. */
    method AddAttribute()
      requires Valid()
      modifies this`attributes
      ensures Valid()
      ensures attributes == old(attributes) + [BlankAttribute]
    {
      attributes := attributes + [BlankAttribute];
    }

    /** `removeAttribute`: with more than one row, the row at `index` goes and the others keep
      their order; the last remaining row is never removed. */
    method RemoveAttribute(index: int)
      requires Valid()
      modifies this`attributes
      ensures Valid()
      ensures |old(attributes)| <= 1 ==> attributes == old(attributes)
      ensures |old(attributes)| > 1 ==> attributes == SpliceOne(old(attributes), index)
      ensures |old(attributes)| > 1 && 0 <= index < |old(attributes)| ==>
        attributes == old(attributes)[..index] + old(attributes)[index + 1..]
    {
      if |attributes| > 1 {
        var newAttributes := attributes;
        newAttributes := SpliceOne(newAttributes, index);
        attributes := newAttributes;
      }
    }

    /** `mintNFT`: returns whether it alerted, the call it sent, the statuses it set in order
      and the navigation it schedules; the page's status ends as the last status set. */
    method MintNFT(view: SessionView, answers: MintAnswers, now: nat)
      returns (alerted: bool, call: Option<MintCall>, statuses: seq<TransactionStatus>, redirect: Option<string>)
      modifies this`transactionStatus
      ensures var run := MintNFTRun(view, Form(), answers, now);
        alerted == run.alerted && call == run.call && statuses == run.statuses
        && redirect == run.redirect
      ensures statuses == [] ==> transactionStatus == old(transactionStatus)
      ensures statuses != [] ==> transactionStatus == statuses[|statuses| - 1]
    {
      alerted, call, statuses, redirect := false, None, [], None;
      if !view.connected || !view.hasContract || !view.isCorrectNetwork {
        return;
      }
      if Strings.IsBlank(dnaHash) {
        alerted := true;
        return;
      }
      transactionStatus := Pending(None);
      statuses := [transactionStatus];
      var metadata := GenerateMetadata(Form(), now);
      call := Some(MintCall(dnaHash, metadata));
      ghost var run := SubmittedRun(call.value, answers);
      assert MintNFTRun(view, Form(), answers, now) == run;
      match answers.submission
      case Threw(e) =>
        transactionStatus := Failed(e.message);
        statuses := statuses + [transactionStatus];
        assert run == MintRun(false, call, statuses, None);
      case Returned(hash) =>
        transactionStatus := Pending(Some(hash));
        statuses := statuses + [transactionStatus];
        match answers.receipt
        case Threw(e) =>
          transactionStatus := Failed(e.message);
          statuses := statuses + [transactionStatus];
          assert run == MintRun(false, call, statuses, None);
        case Returned(logs) =>
          var tokenId := FindTokenId(logs);
          transactionStatus := Succeeded(hash);
          statuses := statuses + [transactionStatus];
          redirect := Some(RedirectPath(tokenId));
          assert run == MintRun(false, call, statuses, redirect);
    }
  }
}
