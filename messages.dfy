/**
 * The strings the minting component shows: the normalised error message
 * written after a failed mint, and the success message with the shortened
 * account address.
 */
module Messages {
  import opened Wrappers
  import opened JsText

  /** What the `error` property of a caught value holds, as far as the handler looks at it. */
  datatype Nested =
    | NoNested                     // `error` is undefined
    | NestedMessage(text: string)  // `error.message` is a string
    | NestedMalformed              // `error` is null, or its `message` is not a string

  /**
   * A value caught around the mint transaction. `Value.message` is the
   * value's own `message` when the value is a non-null object whose `message`
   * is a string, and `rendered` is what `JSON.stringify` gives for the value
   * (or `String`, when stringifying throws).
   */
  datatype Caught =
    | Nullish(rendered: string)  // `null` or `undefined` was thrown
    | Value(nested: Nested, message: Option<string>, rendered: string)

  /** The `{ message: string }` shape that `toErrorWithMessage` returns. */
  datatype ErrorWithMessage = ErrorWithMessage(message: string)

  /** `isErrorWithMessage`: a non-null object whose `message` is a string. */
  predicate IsErrorWithMessage(e: Caught)
  {
    e.Value? && e.message.Some?
  }

  /**
   * `toErrorWithMessage`: a value that already has a string message is
   * returned as it is; anything else becomes an `Error` whose message is the
   * value's serialisation.
   */
  function ToErrorWithMessage(e: Caught): ErrorWithMessage
  {
    if IsErrorWithMessage(e) then ErrorWithMessage(e.message.value) else ErrorWithMessage(e.rendered)
  }

  /** An `ErrorWithMessage` seen again as a caught value: an object with a string message. */
  function AsCaught(w: ErrorWithMessage): Caught
  {
    Value(NoNested, Some(w.message), "{}")
  }

  /** `getErrorMessage`. */
  function GetErrorMessage(e: Caught): string
  {
    ToErrorWithMessage(e).message
  }

  /** Normalising is idempotent: a normalised error normalises to itself. */
  lemma NormaliseIdempotent(e: Caught)
    ensures IsErrorWithMessage(AsCaught(ToErrorWithMessage(e)))
    ensures ToErrorWithMessage(AsCaught(ToErrorWithMessage(e))) == ToErrorWithMessage(e)
    ensures GetErrorMessage(AsCaught(ToErrorWithMessage(e))) == GetErrorMessage(e)
  {
  }

  /** The text that a reverted call puts in front of the contract's reason. */
  const Reverted: string := "execution reverted: "

  /**
   * The message the catch block of `claimNFTs` writes to `errMsg`, or `None`
   * when the catch block itself throws: reading `error` of `null` or
   * `undefined`, or calling `replace` on a nested message that is not a string.
   * A nested error wins over the value's own message; its first
   * `"execution reverted: "` is removed, wherever it stands.
   */
  function HandlerErrMsg(e: Caught): (r: Option<string>)
    ensures r.None? <==> e.Nullish? || e.nested.NestedMalformed?
    ensures e.Value? && e.nested.NoNested? ==> r == Some(GetErrorMessage(e))
    ensures e.Value? && e.nested.NestedMessage? ==>
              r == Some(RemoveFirst(e.nested.text, Reverted)) &&
              (|r.value| == |e.nested.text| || |r.value| == |e.nested.text| - |Reverted|)
  {
    match e
    case Nullish(_) => None
    case Value(nested, _, _) =>
      match nested
      case NoNested => Some(GetErrorMessage(e))
      case NestedMessage(text) => Some(RemoveFirst(text, Reverted))
      case NestedMalformed => None
  }

  /** A reverted call's reason is shown without the revert prefix. */
  lemma RevertReasonShown(reason: string, own: Option<string>, rendered: string)
    ensures HandlerErrMsg(Value(NestedMessage(Reverted + reason), own, rendered)) == Some(reason)
  {
  }

  /** Only the first prefix goes; a repeated one stays. */
  lemma RevertPrefixRemovedOnce(reason: string)
    ensures HandlerErrMsg(Value(NestedMessage(Reverted + Reverted + reason), None, "")) ==
            Some(Reverted + reason)
  {
    assert Reverted + Reverted + reason == Reverted + (Reverted + reason);
    RemoveFirstPrefix(Reverted, Reverted + reason);
  }

  /** A nested message without the prefix is shown verbatim. */
  lemma NestedMessageVerbatim(text: string, own: Option<string>, rendered: string)
    requires forall i :: !OccursAt(text, Reverted, i)
    ensures HandlerErrMsg(Value(NestedMessage(text), own, rendered)) == Some(text)
  {
  }

  /**
   * The first revert prefix is removed wherever it stands: whatever comes
   * before it (containing no earlier prefix) and after it is kept.
   */
  lemma RevertRemovedAnywhere(pre: string, post: string, own: Option<string>, rendered: string)
    requires forall j :: 0 <= j < |pre| ==> !OccursAt(pre + Reverted + post, Reverted, j)
    ensures HandlerErrMsg(Value(NestedMessage(pre + Reverted + post), own, rendered)) == Some(pre + post)
  {
    var s := pre + Reverted + post;
    assert s[|pre|..|pre| + |Reverted|] == Reverted;
    assert OccursAt(s, Reverted, |pre|);
    assert IndexOf(s, Reverted) == |pre|;
    assert s[..|pre|] == pre;
    assert s[|pre| + |Reverted|..] == post;
  }

  /** An instance: `"Error: execution reverted: Sale not active"` is shown as `"Error: Sale not active"`. */
  lemma RevertInsideMessage(pre: string, post: string)
    requires pre == "Error: " && post == "Sale not active"
    ensures HandlerErrMsg(Value(NestedMessage(pre + Reverted + post), None, "")) == Some(pre + post)
  {
    var s := pre + Reverted + post;
    forall j | 0 <= j < |pre|
      ensures !OccursAt(s, Reverted, j)
    {
      assert s[j + 7] == Reverted[j];
      assert Reverted[j] != Reverted[7];
    }
    RevertRemovedAnywhere(pre, post, None, "");
  }

  /** No nested error: the value's own string message, or else its serialisation. */
  lemma FallbackMessage(own: Option<string>, rendered: string)
    ensures HandlerErrMsg(Value(NoNested, own, rendered)) ==
            Some(if own.Some? then own.value else rendered)
  {
  }

  /**
   * `${account.substring(0, 6)}...${account.substring(account.length - 4)}`:
   * the first six and the last four characters around an ellipsis.
   */
  function ShortAddress(account: string): (r: string)
    ensures |account| >= 10 ==> r == account[..6] + "..." + account[|account| - 4..] && |r| == 13
    ensures |account| < 4 ==> r == account + "..." + account
  {
    Substring(account, 0, 6) + "..." + SubstringFrom(account, |account| - 4)
  }

  /** The message written after a confirmed mint of `amount` tokens of `symbol` to `account`. */
  function SuccessMessage(amount: int, symbol: string, account: string): string
  {
    "Yay! " + NumberString(amount) + " " + symbol + " successfully sent to " + ShortAddress(account)
  }

  /**
   * The success message names the amount (the number after "Yay! " reads back
   * as `amount`) and ends with the shortened address.
   */
  lemma SuccessMessageShape(amount: nat, symbol: string, account: string)
    ensures var m := SuccessMessage(amount, symbol, account);
            var d := NumberString(amount);
            var tail := ShortAddress(account);
            |m| > 5 + |d| && m[..5] == "Yay! " && m[5 + |d|] == ' ' &&
            AllDigits(m[5..5 + |d|]) && DecimalValue(m[5..5 + |d|]) == amount &&
            m[|m| - |tail|..] == tail
  {
    var m := SuccessMessage(amount, symbol, account);
    var d := NumberString(amount);
    assert m == "Yay! " + d + (" " + symbol + " successfully sent to " + ShortAddress(account));
    assert m[5..5 + |d|] == d;
  }

  /** An address made of a six-character head, any middle and a four-character tail shows as head...tail. */
  lemma ShortAddressKeepsEnds(head: string, middle: string, tail: string)
    requires |head| == 6 && |tail| == 4
    ensures ShortAddress(head + middle + tail) == head + "..." + tail
  {
  }

  /** The example of a full 42-character address and an amount of two. */
  lemma SuccessMessageExample(symbol: string)
    ensures SuccessMessage(2, symbol, "0x1234" + "567890abcdef1234567890abcdef1234" + "5678") ==
            "Yay! 2 " + symbol + " successfully sent to 0x1234...5678"
  {
  }
}
