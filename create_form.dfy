/**
 * The pure part of the pool-creation dialog (`CreateModal`): the draft the
 * dialog edits, its validation message, the bonus-token candidates and the
 * arguments handed to the factory's `create`.
 */
module CreateForm {
  import opened Wrappers
  import opened Decimal
  import opened Splice

  /** An entry of the per-network token list: its contract address and its symbol. */
  datatype Token = Token(id: string, symbol: string)

  /** The address passed as bonus token when none is selected. */
  const ZERO_ADDR: string := "0x0000000000000000000000000000000000000000"

  const SECONDS_PER_DAY: int := 86400

  const INVALID_FEE: string := "Invalid fee percentage"
  const INVALID_PENALTY: string := "Invalid penalty percentage"
  const INVALID_RECIPIENT: string := "Invalid fee recipient address"
  const INVALID_WINDOW: string := "Invalid expiry and locking window"

  /** The dialog's editable state cells (percentages and days as whole numbers). */
  datatype Draft = Draft(
    selectedIdx: int,
    selectedBonusIdx: int,
    expiry: int,
    lockingPeriodDays: int,
    feeRecipient: string,
    penalty: int,
    fee: int,
    n: int)

  /**
   * The state `CreateModal` mounts with; it stays mounted while the dialog is closed,
   * so reopening the dialog keeps the previous draft. `expiry` is one year after
   * mounting, computed by the date library.
   */
  function DefaultDraft(user: string, expiry: int): Draft {
    Draft(0, -1, expiry, 30, user, 20, 20, 1)
  }

  predicate PercentInRange(p: int) {
    0 <= p <= 100
  }

  /** When the pool stops accepting deposits: `lockingPeriodDays` before expiry. */
  function LockingWindowStart(d: Draft): int {
    d.expiry - SECONDS_PER_DAY * d.lockingPeriodDays
  }

  /** The draft's invariants: both percentages in range, a valid recipient, and a window that does not start before `now`. */
  predicate ValidDraft(d: Draft, isAddress: string -> bool, now: int) {
    && PercentInRange(d.fee)
    && PercentInRange(d.penalty)
    && isAddress(d.feeRecipient)
    && LockingWindowStart(d) >= now
  }

  /**
   * The first failing check's message, in the order fee, penalty, recipient,
   * locking window; `None` when all pass.
   */
  function ErrorMessage(d: Draft, isAddress: string -> bool, now: int): (r: Option<string>)
    ensures r == None <==> ValidDraft(d, isAddress, now)
    ensures r == Some(INVALID_FEE) <==> !PercentInRange(d.fee)
    ensures r == Some(INVALID_PENALTY) <==> PercentInRange(d.fee) && !PercentInRange(d.penalty)
    ensures r == Some(INVALID_RECIPIENT) <==>
      PercentInRange(d.fee) && PercentInRange(d.penalty) && !isAddress(d.feeRecipient)
    ensures r == Some(INVALID_WINDOW) <==>
      PercentInRange(d.fee) && PercentInRange(d.penalty) && isAddress(d.feeRecipient) && LockingWindowStart(d) < now
  {
    if d.fee > 100 || d.fee < 0 then Some(INVALID_FEE)
    else if d.penalty > 100 || d.penalty < 0 then Some(INVALID_PENALTY)
    else if !isAddress(d.feeRecipient) then Some(INVALID_RECIPIENT)
    else if d.expiry - SECONDS_PER_DAY * d.lockingPeriodDays < now then Some(INVALID_WINDOW)
    else None
  }

  /** Two entries of the token list never share an address. */
  predicate DistinctIds(tokens: seq<Token>) {
    forall j, k :: 0 <= j < k < |tokens| ==> tokens[j].id != tokens[k].id
  }

  /**
   * The bonus-token candidates: a copy of the network's token list with the
   * entry at `selectedIdx` spliced out.
   */
  function BonusTokenOptions(tokens: seq<Token>, selectedIdx: int): (r: seq<Token>)
    ensures 0 <= selectedIdx < |tokens| ==> r == tokens[..selectedIdx] + tokens[selectedIdx + 1..]
    ensures 0 <= selectedIdx < |tokens| ==> |r| == |tokens| - 1
    ensures selectedIdx >= |tokens| ==> r == tokens
  {
    SpliceOne(tokens, selectedIdx)
  }

  /** The candidates together with the selected token are exactly the network's token list. */
  lemma BonusTokenOptionsPermutation(tokens: seq<Token>, selectedIdx: int)
    requires 0 <= selectedIdx < |tokens|
    ensures multiset(BonusTokenOptions(tokens, selectedIdx)) + multiset{tokens[selectedIdx]} == multiset(tokens)
  {
    SpliceOneRemovesOne(tokens, selectedIdx);
  }

  /** Candidates keep the list's relative order: earlier candidates come from earlier positions. */
  lemma BonusTokenOptionsKeepOrder(tokens: seq<Token>, selectedIdx: int, a: int, b: int)
    requires 0 <= selectedIdx < |tokens|
    requires 0 <= a < b < |BonusTokenOptions(tokens, selectedIdx)|
    ensures var opts := BonusTokenOptions(tokens, selectedIdx);
      var ia := if a < selectedIdx then a else a + 1;
      var ib := if b < selectedIdx then b else b + 1;
      && ia < ib && ia != selectedIdx && ib != selectedIdx
      && opts[a] == tokens[ia] && opts[b] == tokens[ib]
  {
  }

  /** With distinct addresses, no candidate carries the selected token's address. */
  lemma BonusTokenOptionsExcludeSelected(tokens: seq<Token>, selectedIdx: int)
    requires DistinctIds(tokens)
    requires 0 <= selectedIdx < |tokens|
    ensures forall t :: t in BonusTokenOptions(tokens, selectedIdx) ==> t.id != tokens[selectedIdx].id
  {
  }

  /** Why the argument derivation can throw before `create` is reached. */
  datatype Fault =
    | BonusTokenUndefined    // `bonusTokenOptions[selectedBonusIdx]` is undefined, so reading `.id` throws
    | TokenUndefined         // `tokens[networkId][selectedIdx]` is undefined, so reading `.id` throws
    | CreateRejected(reason: string)  // the factory call itself rejected

  /** The bonus token address: the zero address for index -1, otherwise the candidate's address. */
  function BonusTokenAddress(options: seq<Token>, selectedBonusIdx: int): (r: Result<string, Fault>)
    ensures selectedBonusIdx == -1 ==> r == Success(ZERO_ADDR)
    ensures 0 <= selectedBonusIdx < |options| ==> r == Success(options[selectedBonusIdx].id)
    ensures r.Failure? <==> selectedBonusIdx != -1 && !(0 <= selectedBonusIdx < |options|)
    ensures r.Failure? ==> r.error == BonusTokenUndefined
  {
    if selectedBonusIdx == -1 then Success(ZERO_ADDR)
    else if 0 <= selectedBonusIdx < |options| then Success(options[selectedBonusIdx].id)
    else Failure(BonusTokenUndefined)
  }

  /** A selected bonus token never has the main token's address, when addresses are distinct. */
  lemma BonusTokenIsNotMainToken(tokens: seq<Token>, selectedIdx: int, selectedBonusIdx: int)
    requires DistinctIds(tokens)
    requires 0 <= selectedIdx < |tokens|
    requires selectedBonusIdx != -1
    ensures var r := BonusTokenAddress(BonusTokenOptions(tokens, selectedIdx), selectedBonusIdx);
      r.Success? ==> r.value != tokens[selectedIdx].id
  {
  }

  /** The eight arguments of the factory's `create`, in call order, as the strings it receives. */
  datatype CreateArgs = CreateArgs(
    token: string,
    penaltyBps: string,
    lockingPeriodSeconds: string,
    expiry: string,
    feeBps: string,
    n: string,
    feeRecipient: string,
    bonusToken: string)

  /**
   * The arguments `handleCreate` derives from the draft, or the fault thrown
   * while deriving them. The bonus lookup comes first, then the main token lookup.
   */
  function CreateCall(d: Draft, tokens: seq<Token>): Result<CreateArgs, Fault> {
    match BonusTokenAddress(BonusTokenOptions(tokens, d.selectedIdx), d.selectedBonusIdx)
    case Failure(e) => Failure(e)
    case Success(bonus) =>
      if !(0 <= d.selectedIdx < |tokens|) then Failure(TokenUndefined)
      else Success(CreateArgs(
        tokens[d.selectedIdx].id,
        DecimalString(d.penalty * 10),
        DecimalString(d.lockingPeriodDays * SECONDS_PER_DAY),
        DecimalString(d.expiry),
        DecimalString(d.fee * 10),
        DecimalString(d.n),
        d.feeRecipient,
        bonus))
  }

  /**
   * The bonus lookup throws first; the main token lookup throws only after the
   * bonus lookup succeeded. The call goes out exactly when both lookups succeed, and then carries the
   * selected token, the recipient, the bonus address, and numerals that read
   * back as percent x 10, days x 86400, the expiry and N.
   */
  lemma CreateCallArguments(d: Draft, tokens: seq<Token>)
    ensures var opts := BonusTokenOptions(tokens, d.selectedIdx);
      CreateCall(d, tokens).Success? <==>
        (d.selectedBonusIdx == -1 || 0 <= d.selectedBonusIdx < |opts|) && 0 <= d.selectedIdx < |tokens|
    ensures var opts := BonusTokenOptions(tokens, d.selectedIdx);
      CreateCall(d, tokens) == Failure(BonusTokenUndefined) <==>
        d.selectedBonusIdx != -1 && !(0 <= d.selectedBonusIdx < |opts|)
    ensures var opts := BonusTokenOptions(tokens, d.selectedIdx);
      CreateCall(d, tokens) == Failure(TokenUndefined) <==>
        (d.selectedBonusIdx == -1 || 0 <= d.selectedBonusIdx < |opts|) && !(0 <= d.selectedIdx < |tokens|)
    ensures var call := CreateCall(d, tokens);
      var opts := BonusTokenOptions(tokens, d.selectedIdx);
      call.Success? ==>
        && call.value.token == tokens[d.selectedIdx].id
        && ParseDecimal(call.value.penaltyBps) == Some(d.penalty * 10)
        && ParseDecimal(call.value.lockingPeriodSeconds) == Some(d.lockingPeriodDays * SECONDS_PER_DAY)
        && ParseDecimal(call.value.expiry) == Some(d.expiry)
        && ParseDecimal(call.value.feeBps) == Some(d.fee * 10)
        && ParseDecimal(call.value.n) == Some(d.n)
        && call.value.feeRecipient == d.feeRecipient
        && call.value.bonusToken == (if d.selectedBonusIdx == -1 then ZERO_ADDR else opts[d.selectedBonusIdx].id)
  {
    DecimalRoundTrip(d.penalty * 10);
    DecimalRoundTrip(d.lockingPeriodDays * SECONDS_PER_DAY);
    DecimalRoundTrip(d.expiry);
    DecimalRoundTrip(d.fee * 10);
    DecimalRoundTrip(d.n);
  }

  /**
   * The dialog's defaults give penalty "200", fee "200", a 30-day window of
   * "2592000" seconds, N "1" and no bonus token.
   */
  lemma DefaultCreateCall(user: string, expiry: int, tokens: seq<Token>)
    requires |tokens| > 0
    ensures var call := CreateCall(DefaultDraft(user, expiry), tokens);
      && call.Success?
      && call.value.token == tokens[0].id
      && call.value.penaltyBps == "200"
      && call.value.feeBps == "200"
      && call.value.lockingPeriodSeconds == "2592000"
      && call.value.n == "1"
      && call.value.feeRecipient == user
      && call.value.bonusToken == ZERO_ADDR
  {
    assert NatString(20) == "20";
    assert NatString(200) == "200";
    assert NatString(259) == "259";
    assert NatString(25920) == "25920";
    assert NatString(2592000) == "2592000";
  }

  /** The default draft is valid exactly when the user is an address and expiry is at least 30 days away. */
  lemma DefaultDraftValidity(user: string, expiry: int, isAddress: string -> bool, now: int)
    ensures ErrorMessage(DefaultDraft(user, expiry), isAddress, now) == None <==>
      isAddress(user) && expiry - 30 * SECONDS_PER_DAY >= now
  {
  }

  /** Worked example: a 30-day window on a pool expiring in 10 days has already started. */
  lemma LockingWindowExample(d: Draft, isAddress: string -> bool, now: int)
    requires PercentInRange(d.fee) && PercentInRange(d.penalty) && isAddress(d.feeRecipient)
    requires d.lockingPeriodDays == 30 && d.expiry == now + 10 * SECONDS_PER_DAY
    ensures ErrorMessage(d, isAddress, now) == Some(INVALID_WINDOW)
  {
  }

  /** A window that starts exactly now is accepted. */
  lemma LockingWindowBoundary(d: Draft, isAddress: string -> bool, now: int)
    requires PercentInRange(d.fee) && PercentInRange(d.penalty) && isAddress(d.feeRecipient)
    requires d.expiry - SECONDS_PER_DAY * d.lockingPeriodDays == now
    ensures ErrorMessage(d, isAddress, now) == None
  {
  }

  /**
   * The wallet-user effect: a non-empty user overwrites the recipient, even one
   * typed in by hand; an empty user leaves the draft alone.
   */
  function WithWalletUser(d: Draft, user: string): (r: Draft)
    ensures user != "" ==> r.feeRecipient == user
    ensures user == "" ==> r == d
    ensures r == d.(feeRecipient := r.feeRecipient)
  {
    if user != "" then d.(feeRecipient := user) else d
  }
}
