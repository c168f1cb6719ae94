/**
 * The state of the minting component as a value, and the transitions that
 * its handlers make on it: the quantity stepper, the rule that picks the
 * per-mint maximum from the sale state, the flag and message changes of a
 * mint attempt, and the Buy button that the state renders.
 */
module MintState {
  import opened Wrappers
  import opened JsText
  import opened Messages

  /** The component's state fields, plus `message` and `errMsg` from the shared contract context. */
  datatype View = View(
    totalSupply: string,
    mintMax: nat,
    isPending: bool,
    isMinting: bool,
    mintAmount: int,
    isSaleEnabled: bool,
    isPresaleEnabled: bool,
    message: string,
    errMsg: string)

  /** The state on first render; `message` and `errMsg` are whatever the context holds. */
  function Initial(message: string, errMsg: string): View
  {
    View("?", 1, false, false, 1, false, false, message, errMsg)
  }

  // ---------------------------------------------------------------- stepper

  /** `decrementMintAmount`. */
  function Decrement(v: View): View
  {
    if v.mintAmount > 1 then v.(mintAmount := v.mintAmount - 1) else v
  }

  /** `incrementMintAmount`. */
  function Increment(v: View): View
  {
    if v.mintAmount < v.mintMax then v.(mintAmount := v.mintAmount + 1) else v
  }

  /** A decrement lowers the amount by one above 1, is a no-op at 1, and touches nothing else. */
  lemma DecrementSteps(v: View)
    requires v.mintAmount >= 1
    ensures Decrement(v).mintAmount >= 1
    ensures v.mintAmount > 1 <==> Decrement(v).mintAmount == v.mintAmount - 1
    ensures v.mintAmount == 1 <==> Decrement(v) == v
    ensures Decrement(v) == v.(mintAmount := Decrement(v).mintAmount)
  {
  }

  /**
   * An increment raises the amount by one exactly when it is below the
   * maximum, so it never produces a value above the maximum; an amount
   * already at or above the maximum is left where it is, not clamped down.
   */
  lemma IncrementSteps(v: View)
    ensures v.mintAmount < v.mintMax <==> Increment(v).mintAmount == v.mintAmount + 1
    ensures v.mintAmount >= v.mintMax <==> Increment(v) == v
    ensures Increment(v).mintAmount <= if v.mintAmount > v.mintMax then v.mintAmount else v.mintMax
    ensures Increment(v) == v.(mintAmount := Increment(v).mintAmount)
  {
  }

  /** Below the maximum, a decrement undoes an increment. */
  lemma DecrementUndoesIncrement(v: View)
    requires 1 <= v.mintAmount < v.mintMax
    ensures Decrement(Increment(v)) == v
  {
  }

  /** Above 1 and not above the maximum, an increment undoes a decrement. */
  lemma IncrementUndoesDecrement(v: View)
    requires 1 < v.mintAmount <= v.mintMax
    ensures Increment(Decrement(v)) == v
  {
  }

  // ------------------------------------------------------------- sale state

  /** What `fetchTotalSupply` reads from the contract. */
  datatype SaleState = SaleState(
    totalSupply: nat,
    saleEnabled: bool,
    presaleEnabled: bool,
    maxMintPerAddress: nat,
    maxMintPerTx: nat)

  /** `fetchTotalSupply`: records the reads and picks `mintMax` from the sale flags. */
  function ApplySaleState(v: View, s: SaleState): View
  {
    var w := v.(totalSupply := NumberString(s.totalSupply),
                isSaleEnabled := s.saleEnabled,
                isPresaleEnabled := s.presaleEnabled);
    if s.saleEnabled && s.presaleEnabled then w.(mintMax := s.maxMintPerAddress)
    else if s.saleEnabled && !s.presaleEnabled then w.(mintMax := s.maxMintPerTx)
    else w
  }

  /**
   * The maximum is the per-address cap during a presale, the per-transaction
   * cap during the public sale alone, and is kept when the sale is off. The
   * amount, the flags of a mint attempt and the messages are not touched.
   */
  lemma MintMaxRule(v: View, s: SaleState)
    ensures var w := ApplySaleState(v, s);
            (s.saleEnabled && s.presaleEnabled ==> w.mintMax == s.maxMintPerAddress) &&
            (s.saleEnabled && !s.presaleEnabled ==> w.mintMax == s.maxMintPerTx) &&
            (!s.saleEnabled ==> w.mintMax == v.mintMax) &&
            w.isSaleEnabled == s.saleEnabled && w.isPresaleEnabled == s.presaleEnabled &&
            DecimalValue(w.totalSupply) == s.totalSupply &&
            w.mintAmount == v.mintAmount && w.isPending == v.isPending && w.isMinting == v.isMinting &&
            w.message == v.message && w.errMsg == v.errMsg
  {
  }

  /** Reading the same sale state twice is the same as reading it once. */
  lemma ApplySaleStateIdempotent(v: View, s: SaleState)
    ensures ApplySaleState(ApplySaleState(v, s), s) == ApplySaleState(v, s)
  {
  }

  // ------------------------------------------------------------ mint attempt

  /** How the chain calls of a mint attempt end. */
  datatype ChainOutcome =
    | SubmitFails(error: Caught)  // building the contract or `paidMint` throws
    | WaitFails(error: Caught)    // `paidMint` is accepted, `transaction.wait()` throws
    | Confirmed                   // both succeed

  /** The quantity and allowlist proof passed to `paidMint` (the payment is not modelled). */
  datatype MintRequest = MintRequest(quantity: int, proof: seq<string>)

  /** `active && account`: a connected session with a non-empty account. */
  predicate CanClaim(active: bool, account: Option<string>)
  {
    active && account.Some? && account.value != ""
  }

  /** The proof sent: empty outside the presale, the allowlist proof of the account during it. */
  function ProofFor(presale: bool, account: string, proofOf: string -> seq<string>): seq<string>
  {
    if presale then proofOf(account) else []
  }

  /** The request `claimNFTs` submits, or `None` when its guard stops it. */
  function ClaimRequest(v: View, active: bool, account: Option<string>, proofOf: string -> seq<string>): Option<MintRequest>
  {
    if CanClaim(active, account)
    then Some(MintRequest(v.mintAmount, ProofFor(v.isPresaleEnabled, account.value, proofOf)))
    else None
  }

  /** On entry: both messages cleared, pending set. */
  function BeginClaim(v: View): View
  {
    v.(errMsg := "", message := "", isPending := true)
  }

  /** `paidMint` accepted: no longer pending, now minting. */
  function OnAccepted(v: View): View
  {
    v.(isPending := false, isMinting := true)
  }

  /** `wait()` returned: no longer minting, success message written. */
  function OnConfirmed(v: View, symbol: string, account: string): View
  {
    v.(isMinting := false, message := SuccessMessage(v.mintAmount, symbol, account))
  }

  /** The catch block: pending cleared, `isMinting` left as it is, `errMsg` written unless the block throws. */
  function OnFailure(v: View, e: Caught): View
  {
    var w := v.(isPending := false);
    match HandlerErrMsg(e)
    case Some(m) => w.(errMsg := m)
    case None => w
  }

  /** `claimNFTs` run to its end with the given chain outcome. */
  function AfterClaim(v: View, active: bool, account: Option<string>, outcome: ChainOutcome, symbol: string): View
  {
    if !CanClaim(active, account) then v
    else
      var p := BeginClaim(v);
      match outcome
      case SubmitFails(e) => OnFailure(p, e)
      case WaitFails(e) => OnFailure(OnAccepted(p), e)
      case Confirmed => OnConfirmed(OnAccepted(p), symbol, account.value)
  }

  /** Without a connected, non-empty account nothing is submitted and nothing changes. */
  lemma ClaimNeedsSession(v: View, active: bool, account: Option<string>, outcome: ChainOutcome,
                          symbol: string, proofOf: string -> seq<string>)
    ensures ClaimRequest(v, active, account, proofOf).None? <==> !CanClaim(active, account)
    ensures !CanClaim(active, account) ==> AfterClaim(v, active, account, outcome, symbol) == v
  {
  }

  /** The proof sent is empty outside the presale and the account's allowlist proof during it. */
  lemma ClaimProof(v: View, account: string, proofOf: string -> seq<string>)
    requires account != ""
    ensures var r := ClaimRequest(v, true, Some(account), proofOf);
            r.Some? && r.value.quantity == v.mintAmount &&
            (!v.isPresaleEnabled ==> r.value.proof == []) &&
            (v.isPresaleEnabled ==> r.value.proof == proofOf(account))
  {
  }

  /** A confirmed mint clears both flags and `errMsg`, and reports the amount and the shortened account. */
  lemma ClaimConfirmed(v: View, account: string, symbol: string)
    requires account != ""
    ensures var w := AfterClaim(v, true, Some(account), Confirmed, symbol);
            !w.isPending && !w.isMinting && w.errMsg == "" &&
            w.message == SuccessMessage(v.mintAmount, symbol, account) &&
            w == v.(isPending := false, isMinting := false, errMsg := w.errMsg, message := w.message)
  {
  }

  /**
   * A failed mint clears `isPending` and the success message and writes the
   * normalised error (or leaves `errMsg` empty when the catch block throws).
   * A submission failure leaves `isMinting` as it was; a failure while
   * waiting leaves it set.
   */
  lemma ClaimFails(v: View, account: string, outcome: ChainOutcome, symbol: string)
    requires account != "" && !outcome.Confirmed?
    ensures var w := AfterClaim(v, true, Some(account), outcome, symbol);
            !w.isPending && w.message == "" &&
            w.errMsg == (match HandlerErrMsg(outcome.error) case Some(m) => m case None => "") &&
            w.isMinting == (outcome.WaitFails? || v.isMinting) &&
            w.mintAmount == v.mintAmount && w.mintMax == v.mintMax && w.totalSupply == v.totalSupply &&
            w.isSaleEnabled == v.isSaleEnabled && w.isPresaleEnabled == v.isPresaleEnabled
  {
  }

  /** The revert example: the contract's reason alone is shown. */
  lemma ClaimRevertedExample(v: View, account: string, symbol: string)
    requires account != ""
    ensures AfterClaim(v, true, Some(account),
                       SubmitFails(Value(NestedMessage(Reverted + "Sale not active"), None, "{}")),
                       symbol).errMsg == "Sale not active"
  {
  }

  // ------------------------------------------------------------- Buy button

  /** What the Buy slot renders: a disabled Buy, a busy spinner with its label, or a clickable Buy. */
  datatype BuyButton = Inactive | Busy(caption: string) | Clickable

  function Button(active: bool, v: View): BuyButton
  {
    if !active then Inactive
    else if v.isPending || v.isMinting then
      Busy((if v.isPending then "Pending" else "") +
           (if v.isMinting then "Minting" else "") +
           (if !v.isPending && !v.isMinting then "Processing" else ""))
    else Clickable
  }

  /** Buy is clickable exactly when the session is active and no mint is pending or minting. */
  lemma ButtonClickable(active: bool, v: View)
    ensures Button(active, v) == Clickable <==> active && !v.isPending && !v.isMinting
    ensures Button(active, v).Busy? ==> Button(active, v).caption != "Processing"
  {
  }

  /** While a submission is pending the spinner says "Pending"; once accepted it says "Minting". */
  lemma ButtonDuringClaim(v: View)
    requires !v.isMinting
    ensures Button(true, BeginClaim(v)) == Busy("Pending")
    ensures Button(true, OnAccepted(BeginClaim(v))) == Busy("Minting")
  {
  }

  // ------------------------------------------------------------ event runs

  /** What a user and the chain can do to the component; a mint attempt runs to its end. */
  datatype Event =
    | Decrease
    | Increase
    | SaleStateRead(sale: SaleState)
    | BuyClicked(active: bool, account: Option<string>, outcome: ChainOutcome)

  /** One event: a click on Buy reaches `claimNFTs` only when the button is clickable. */
  function Step(v: View, e: Event, symbol: string): View
  {
    match e
    case Decrease => Decrement(v)
    case Increase => Increment(v)
    case SaleStateRead(s) => ApplySaleState(v, s)
    case BuyClicked(active, account, outcome) =>
      if Button(active, v) == Clickable then AfterClaim(v, active, account, outcome, symbol) else v
  }

  function Run(v: View, events: seq<Event>, symbol: string): View
    decreases |events|
  {
    if events == [] then v else Run(Step(v, events[0], symbol), events[1..], symbol)
  }

  /** A click on Buy while a mint is pending or minting does nothing. */
  lemma BusyClickIgnored(v: View, active: bool, account: Option<string>, outcome: ChainOutcome, symbol: string)
    requires v.isPending || v.isMinting
    ensures Step(v, BuyClicked(active, account, outcome), symbol) == v
  {
  }

  /** The amount never drops below 1, whatever happens. */
  lemma {:induction false} RunKeepsAmountPositive(v: View, events: seq<Event>, symbol: string)
    requires v.mintAmount >= 1
    ensures Run(v, events, symbol).mintAmount >= 1
    decreases |events|
  {
    if events != [] {
      RunKeepsAmountPositive(Step(v, events[0], symbol), events[1..], symbol);
    }
  }

  /**
   * Once `isMinting` is set outside a completed mint, as a failure while
   * waiting leaves it, nothing clears it again: the Buy button stays
   * unclickable for every later sequence of events.
   */
  lemma {:induction false} MintingIsSticky(v: View, events: seq<Event>, symbol: string, active: bool)
    requires v.isMinting
    ensures Run(v, events, symbol).isMinting
    ensures Button(active, Run(v, events, symbol)) != Clickable
    decreases |events|
  {
    if events != [] {
      MintingIsSticky(Step(v, events[0], symbol), events[1..], symbol, active);
    }
  }

  /** A failure during `wait()` locks the Buy button for good. */
  lemma WaitFailureLocksBuy(v: View, account: string, e: Caught, symbol: string,
                            events: seq<Event>, active: bool)
    requires account != ""
    ensures Button(active, Run(AfterClaim(v, true, Some(account), WaitFails(e), symbol), events, symbol)) != Clickable
  {
    MintingIsSticky(AfterClaim(v, true, Some(account), WaitFails(e), symbol), events, symbol, active);
  }

  /**
   * The amount stays within `[1, mintMax]` under every event except a sale
   * read that lowers the maximum below the current amount.
   */
  lemma StepKeepsAmountInRange(v: View, e: Event, symbol: string)
    requires 1 <= v.mintAmount <= v.mintMax
    requires e.SaleStateRead? ==> ApplySaleState(v, e.sale).mintMax >= v.mintAmount
    ensures 1 <= Step(v, e, symbol).mintAmount <= Step(v, e, symbol).mintMax
  {
  }

  /**
   * The maximum is not a bound on the amount: raising the amount to 3 under
   * a per-transaction cap of 3 and then entering a presale with a
   * per-address cap of 1 leaves the amount at 3.
   */
  lemma AmountNotClamped(symbol: string)
    ensures var w := Run(Initial("", ""),
                         [SaleStateRead(SaleState(0, true, false, 1, 3)), Increase, Increase,
                          SaleStateRead(SaleState(0, true, true, 1, 3))],
                         symbol);
            w.mintAmount == 3 && w.mintMax == 1
  {
  }
}
