/**
 * The `Minting` component as an object: its React state becomes fields,
 * each setter call a field update, and each handler a method whose new state
 * is the matching transition of `MintState`.
 */
module Minting {
  import opened Wrappers
  import JsText
  import opened Messages
  import opened MintState

  class MintingComponent {
    var totalSupply: string
    var mintMax: nat
    var isPending: bool
    var isMinting: bool
    var mintAmount: int
    var isSaleEnabled: bool
    var isPresaleEnabled: bool
    var message: string  // from the contract context
    var errMsg: string   // from the contract context

    /** The fields as one value. */
    ghost function View(): View
      reads this
    {
      MintState.View(totalSupply, mintMax, isPending, isMinting, mintAmount,
                     isSaleEnabled, isPresaleEnabled, message, errMsg)
    }

    /** The stepper never takes the amount below 1. */
    ghost predicate Valid()
      reads this
    {
      mintAmount >= 1
    }

    /** First render: `totalSupply` is "?", amount and maximum are 1, no flag is set. */
    constructor (message: string, errMsg: string)
      ensures Valid() && View() == Initial(message, errMsg)
    {
      totalSupply := "?";
      mintMax := 1;
      isPending := false;
      isMinting := false;
      mintAmount := 1;
      isSaleEnabled := false;
      isPresaleEnabled := false;
      this.message := message;
      this.errMsg := errMsg;
    }

    method DecrementMintAmount()
      requires Valid()
      modifies this
      ensures Valid() && View() == Decrement(old(View()))
    {
      if mintAmount > 1 {
        mintAmount := mintAmount - 1;
      }
    }

    method IncrementMintAmount()
      requires Valid()
      modifies this
      ensures Valid() && View() == Increment(old(View()))
    {
      if mintAmount < mintMax {
        mintAmount := mintAmount + 1;
      }
    }

    /** `fetchTotalSupply`, with the contract's answers as the argument. */
    method FetchTotalSupply(sale: SaleState)
      requires Valid()
      modifies this
      ensures Valid() && View() == ApplySaleState(old(View()), sale)
    {
      totalSupply := JsText.NumberString(sale.totalSupply);
      isSaleEnabled := sale.saleEnabled;
      isPresaleEnabled := sale.presaleEnabled;
      if sale.saleEnabled && sale.presaleEnabled {
        mintMax := sale.maxMintPerAddress;
      } else if sale.saleEnabled && !sale.presaleEnabled {
        mintMax := sale.maxMintPerTx;
      }
    }

    /**
     * `claimNFTs`: the chain calls are replaced by their `outcome`, the Merkle
     * proof by `proofOf`, and `symbol` is the configured token symbol. Returns
     * the request handed to `paidMint`, or `None` when the guard stops it.
     */
    method ClaimNFTs(active: bool, account: Option<string>, outcome: ChainOutcome,
                     symbol: string, proofOf: string -> seq<string>)
      returns (request: Option<MintRequest>)
      requires Valid()
      modifies this
      ensures Valid()
      ensures View() == AfterClaim(old(View()), active, account, outcome, symbol)
      ensures request == ClaimRequest(old(View()), active, account, proofOf)
    {
      request := None;
      if active && account.Some? && account.value != "" {
        var acct := account.value;
        errMsg := "";
        message := "";
        isPending := true;
        var proof: seq<string> := [];
        if isPresaleEnabled {
          proof := proofOf(acct);
        }
        request := Some(MintRequest(mintAmount, proof));
        match outcome {
          case SubmitFails(e) =>
            Catch(e);
          case WaitFails(e) =>
            isPending := false;
            isMinting := true;
            Catch(e);
          case Confirmed =>
            isPending := false;
            isMinting := true;
            isMinting := false;
            message := SuccessMessage(mintAmount, symbol, acct);
        }
      }
    }

    /** The catch block of `claimNFTs`. */
    method Catch(e: Caught)
      requires Valid()
      modifies this
      ensures Valid() && View() == OnFailure(old(View()), e)
    {
      isPending := false;
      match e {
        case Nullish(_) =>
        case Value(nested, _, _) =>
          match nested {
            case NoNested =>
              errMsg := GetErrorMessage(e);
            case NestedMessage(text) =>
              errMsg := JsText.RemoveFirst(text, Reverted);
            case NestedMalformed =>
          }
      }
    }
  }

  /** A session of the component: the stepper, a sale read and a confirmed presale mint. */
  method ExampleSession(account: string, symbol: string, proofOf: string -> seq<string>)
    requires account != ""
  {
    var c := new MintingComponent("", "");
    c.IncrementMintAmount();
    assert c.mintAmount == 1;
    c.FetchTotalSupply(SaleState(10, true, true, 5, 2));
    c.IncrementMintAmount();
    c.IncrementMintAmount();
    assert c.mintAmount == 3 && c.mintMax == 5;
    var r := c.ClaimNFTs(true, Some(account), Confirmed, symbol, proofOf);
    assert r == Some(MintRequest(3, proofOf(account)));
    assert !c.isPending && !c.isMinting && c.errMsg == "";
    c.DecrementMintAmount();
    assert c.mintAmount == 2;
  }
}
