# Mint controller of the y2123 dapp, in Dafny

The `Minting` React component (`components/Minting.tsx`) lets a connected
wallet mint NFTs through the contract's `paidMint`. This project models its
controller logic:

- the quantity stepper (`decrementMintAmount`, `incrementMintAmount`);
- the rule at the end of `fetchTotalSupply` that picks `mintMax` from the sale flags;
- the flag and message changes of `claimNFTs` on entry, on acceptance of the
  transaction, on confirmation and on failure, and the request it submits;
- the error normalisation (`isErrorWithMessage`, `toErrorWithMessage`,
  `getErrorMessage`, and the removal of the first `"execution reverted: "`);
- the success message with the shortened account address;
- the condition under which the Buy button is clickable.

Layout:

- `wrappers.dfy` — `Option`.
- `js_text.dfy` (module `JsText`) — the JavaScript built-ins used: `substring`
  (clamping and swapping its indices), `indexOf`, `replace` with a string
  pattern and an empty replacement (only the first occurrence goes), and the
  rendering of an integer in a template literal, with its read-back.
- `messages.dfy` (module `Messages`) — caught values, error normalisation,
  the catch block's `errMsg`, the success message.
- `mint_state.dfy` (module `MintState`) — the component state as a value
  `View`, every handler as a transition on it, the Buy button, and runs of
  user and chain events, with the lemmas about them.
- `minting.dfy` (module `Minting`) — class `MintingComponent`, whose fields are
  the React state (`totalSupply`, `mintMax`, `isPending`, `isMinting`,
  `mintAmount`, `isSaleEnabled`, `isPresaleEnabled`) plus `message` and
  `errMsg` from the contract context; each setter call is a field update and
  each handler a method whose new `View()` is the matching `MintState`
  transition of the old one.

The chain is not called: `claimNFTs` takes a `ChainOutcome` (`paidMint` throws,
`wait()` throws, or both succeed), and `fetchTotalSupply` takes the values the
contract would return. The Merkle proof is an opaque function
`proofOf: string -> seq<string>`. A caught value is a `Caught`: `null` or
`undefined`, or a value with its nested `error` (absent, with a string
message, or malformed), its own string `message` if any, and its
serialisation (what `JSON.stringify`, or `String`, gives) as a plain string.

Behaviour of the code that the model pins down:

- The amount is not clamped when `mintMax` drops. An increment stops at
  `mintMax`, but a later sale read that lowers `mintMax` leaves a larger
  amount in place (`MintState.AmountNotClamped`).
- A failure does not reset `isMinting`. The catch block clears `isPending`
  only, so a failure during `wait()` leaves `isMinting` set and the Buy button
  disabled for the rest of the session (`MintState.WaitFailureLocksBuy`).
- `claimNFTs` checks only `active && account`. A second submission while one
  is in flight is prevented only by the Buy button not being clickable while
  pending or minting (`MintState.BusyClickIgnored`).
- The catch block itself throws, and leaves `errMsg` empty, when the caught
  value is `null` or `undefined` or its nested error has no string message.

## Model

| member | source | states |
|---|---|---|
| `JsText.Substring` | components/Minting.tsx:318-321 | `substring` clamps both indices into the string and swaps them when reversed: the length is their distance, in-range indices give the slice |
| `JsText.SubstringFrom` | components/Minting.tsx:321 | `substring(start)` is the suffix from `start`, the whole string for a negative start, empty past the end |
| `JsText.SubstringSymmetric` | components/Minting.tsx:318-321 | the order of the two indices does not matter |
| `JsText.IndexFrom` | components/Minting.tsx:330 | the search from position `k` returns an occurrence at or after `k` with none between `k` and it, or -1 when there is none from `k` on |
| `JsText.IndexOf` | components/Minting.tsx:330 | the result is the first index where the pattern occurs, or -1 exactly when it occurs nowhere |
| `JsText.RemoveFirst` | components/Minting.tsx:330 | `replace(pat, '')` leaves the string alone when `pat` is absent; otherwise the result is `|pat|` shorter and re-inserting `pat` at the first occurrence gives back the input |
| `JsText.RemoveFirstAbsent` | components/Minting.tsx:330 | a string that does not contain the pattern is unchanged |
| `JsText.RemoveFirstPrefix` | components/Minting.tsx:330 | a leading pattern is removed and exactly the rest remains |
| `JsText.RemoveFirstShortens` | components/Minting.tsx:330 | any occurrence means the result is exactly `|pat|` shorter and the first occurrence is no later than it |
| `JsText.DecimalString` | components/Minting.tsx:317 | the rendering of a natural number is a non-empty string of digits, without a leading zero unless the number is 0 |
| `JsText.DecimalRoundTrip` | components/Minting.tsx:317 | reading the digits back gives the number |
| `JsText.NumberString` | components/Minting.tsx:317 | `${n}` for an integer: a non-empty digit string without a leading zero (unless `n` is 0) that reads back as `n`, after a `-` for a negative `n` |
| `Messages.IsErrorWithMessage` | components/Minting.tsx:33-40 | the type guard: a non-null object with a string `message`; its properties are stated by `Messages.NormaliseIdempotent` and `Messages.FallbackMessage` |
| `Messages.ToErrorWithMessage` | components/Minting.tsx:42-52 | the definition of `toErrorWithMessage`; `Messages.NormaliseIdempotent` states that it returns an error that already has a message unchanged, `Messages.FallbackMessage` what it gives otherwise |
| `Messages.GetErrorMessage` | components/Minting.tsx:54-56 | the message of the normalised error; stated by `Messages.NormaliseIdempotent` and `Messages.FallbackMessage` |
| `Messages.NormaliseIdempotent` | components/Minting.tsx:33-56 | a normalised error is recognised by `isErrorWithMessage` and normalises to itself, with the same `getErrorMessage` |
| `Messages.HandlerErrMsg` | components/Minting.tsx:324-331 | the catch block writes nothing exactly for a nullish value or a malformed nested error; without a nested error it writes `getErrorMessage`; with one, that message with its first `"execution reverted: "` removed, so unchanged or exactly one prefix shorter |
| `Messages.RevertReasonShown` | components/Minting.tsx:330 | `"execution reverted: " + reason` is shown as `reason`, whatever the value's own message |
| `Messages.RevertPrefixRemovedOnce` | components/Minting.tsx:330 | of a doubled revert prefix only the first is removed |
| `Messages.RevertRemovedAnywhere` | components/Minting.tsx:330 | for every text before and after the first revert prefix, the prefix is removed and both sides are kept |
| `Messages.RevertInsideMessage` | components/Minting.tsx:330 | the instance `"Error: execution reverted: Sale not active"` shows as `"Error: Sale not active"` |
| `Messages.NestedMessageVerbatim` | components/Minting.tsx:330 | a nested message without the prefix is shown verbatim |
| `Messages.FallbackMessage` | components/Minting.tsx:327-328 | without a nested error the value's own string message is shown, or else its serialisation |
| `Messages.ShortAddress` | components/Minting.tsx:318-321 | an address of 10 or more characters shows as its first 6, `...`, its last 4 (13 characters); one under 4 characters shows twice around `...` |
| `Messages.ShortAddressKeepsEnds` | components/Minting.tsx:318-321 | a 6-character head and a 4-character tail survive, whatever lies between |
| `Messages.SuccessMessage` | components/Minting.tsx:316-322 | the success message template; stated by `Messages.SuccessMessageShape` and `Messages.SuccessMessageExample` |
| `Messages.SuccessMessageShape` | components/Minting.tsx:316-322 | the success message starts with `Yay! `, the digits after it read back as the amount, and it ends with the shortened address |
| `Messages.SuccessMessageExample` | components/Minting.tsx:316-322 | amount 2 to `0x1234567890abcdef1234567890abcdef12345678` gives `Yay! 2 <symbol> successfully sent to 0x1234...5678` |
| `MintState.Initial` | components/Minting.tsx:15-21 | the `useState` initial values; used by `Minting.MintingComponent.constructor` and `MintState.AmountNotClamped` |
| `MintState.Decrement` | components/Minting.tsx:336-340 | `decrementMintAmount` on the state value; stated by `MintState.DecrementSteps`, `MintState.IncrementUndoesDecrement` and `MintState.RunKeepsAmountPositive` |
| `MintState.Increment` | components/Minting.tsx:342-346 | `incrementMintAmount` on the state value; stated by `MintState.IncrementSteps`, `MintState.DecrementUndoesIncrement` and `MintState.StepKeepsAmountInRange` |
| `MintState.DecrementSteps` | components/Minting.tsx:336-340 | a decrement lowers the amount by exactly 1 when it is above 1, is a no-op at 1, never goes below 1 and changes no other field |
| `MintState.IncrementSteps` | components/Minting.tsx:342-346 | an increment raises the amount by exactly 1 iff it is below `mintMax`, is a no-op otherwise, never yields more than `max(amount, mintMax)` and changes no other field |
| `MintState.DecrementUndoesIncrement` | components/Minting.tsx:336-346 | below the maximum a decrement undoes an increment |
| `MintState.IncrementUndoesDecrement` | components/Minting.tsx:336-346 | between 2 and the maximum an increment undoes a decrement |
| `MintState.ApplySaleState` | components/Minting.tsx:355-369 | `fetchTotalSupply` on the state value; stated by `MintState.MintMaxRule` and `MintState.ApplySaleStateIdempotent` |
| `MintState.MintMaxRule` | components/Minting.tsx:355-369 | sale and presale: `mintMax` is the per-address cap; sale only: the per-transaction cap; sale off: unchanged; the flags and supply are recorded and the amount, mint flags and messages untouched |
| `MintState.ApplySaleStateIdempotent` | components/Minting.tsx:355-369 | applying the same sale read twice equals applying it once |
| `MintState.CanClaim` | components/Minting.tsx:59 | the `active && account` guard; stated by `MintState.ClaimNeedsSession` |
| `MintState.ProofFor` | components/Minting.tsx:74-307 | the proof: empty unless presale, else `proofOf(account)`; stated by `MintState.ClaimProof` |
| `MintState.ClaimRequest` | components/Minting.tsx:59-310 | the quantity and proof `claimNFTs` builds for `paidMint`; stated by `MintState.ClaimNeedsSession` and `MintState.ClaimProof` |
| `MintState.BeginClaim` | components/Minting.tsx:60-64 | entry: messages cleared, pending set; stated by `MintState.ClaimFails`, `MintState.ClaimConfirmed` and `MintState.ButtonDuringClaim` |
| `MintState.OnAccepted` | components/Minting.tsx:312-313 | acceptance: pending cleared, minting set; stated by `MintState.ButtonDuringClaim` and `MintState.ClaimFails` |
| `MintState.OnConfirmed` | components/Minting.tsx:315-322 | confirmation: minting cleared, success message written; stated by `MintState.ClaimConfirmed` |
| `MintState.OnFailure` | components/Minting.tsx:324-331 | the catch block: pending cleared, `isMinting` kept, `errMsg` from `Messages.HandlerErrMsg`; stated by `MintState.ClaimFails` |
| `MintState.AfterClaim` | components/Minting.tsx:58-334 | the whole mint attempt; stated by `MintState.ClaimNeedsSession`, `MintState.ClaimConfirmed`, `MintState.ClaimFails` and `MintState.WaitFailureLocksBuy` |
| `MintState.ClaimNeedsSession` | components/Minting.tsx:59-64 | a request is built iff `active && account`; otherwise the state is unchanged |
| `MintState.ClaimProof` | components/Minting.tsx:74-310 | the submitted quantity is the amount; the proof is empty outside the presale and `proofOf(account)` during it |
| `MintState.ClaimConfirmed` | components/Minting.tsx:312-322 | after a confirmed mint both flags are clear, `errMsg` is empty, `message` is the success message, nothing else changed |
| `MintState.ClaimFails` | components/Minting.tsx:324-331 | after a failure `isPending` is clear, `message` empty, `errMsg` the normalised error (empty when the handler throws), `isMinting` set after a `wait()` failure and as before after a submission failure; amount and sale fields unchanged |
| `MintState.ClaimRevertedExample` | components/Minting.tsx:324-331 | a revert with `"execution reverted: Sale not active"` leaves `errMsg == "Sale not active"` |
| `MintState.Button` | components/Minting.tsx:422-470 | what the Buy slot renders; stated by `MintState.ButtonClickable` and `MintState.ButtonDuringClaim` |
| `MintState.ButtonClickable` | components/Minting.tsx:422-470 | Buy is clickable iff the session is active and neither pending nor minting; a busy button never reads "Processing" |
| `MintState.ButtonDuringClaim` | components/Minting.tsx:433-461 | after entry the spinner reads "Pending", after acceptance "Minting" |
| `MintState.Step` | components/Minting.tsx:336-470 | one user or chain event, a Buy click reaching `claimNFTs` only when the button is clickable; stated by `MintState.BusyClickIgnored` and `MintState.StepKeepsAmountInRange` |
| `MintState.Run` | components/Minting.tsx:336-470 | a sequence of events; stated by `MintState.RunKeepsAmountPositive`, `MintState.MintingIsSticky` and `MintState.AmountNotClamped` |
| `MintState.BusyClickIgnored` | components/Minting.tsx:433-470 | a click while pending or minting changes nothing |
| `MintState.RunKeepsAmountPositive` | components/Minting.tsx:336-346 | every sequence of events keeps the amount at least 1 |
| `MintState.MintingIsSticky` | components/Minting.tsx:313-331 | once `isMinting` is set outside a completed mint, no sequence of events clears it and Buy stays unclickable |
| `MintState.WaitFailureLocksBuy` | components/Minting.tsx:313-331 | after a failure during `wait()` the Buy button is never clickable again |
| `MintState.StepKeepsAmountInRange` | components/Minting.tsx:342-369 | every event keeps the amount within `[1, mintMax]` unless a sale read lowers `mintMax` below it |
| `MintState.AmountNotClamped` | components/Minting.tsx:342-369 | raising the amount to 3 under a cap of 3 and then reading a presale cap of 1 leaves the amount 3 above `mintMax` 1 |
| `Minting.MintingComponent.constructor` | components/Minting.tsx:15-21 | the first render: supply `"?"`, amount and maximum 1, no flag set |
| `Minting.MintingComponent.DecrementMintAmount` | components/Minting.tsx:336-340 | the new state is `Decrement` of the old; the amount stays at least 1 |
| `Minting.MintingComponent.IncrementMintAmount` | components/Minting.tsx:342-346 | the new state is `Increment` of the old |
| `Minting.MintingComponent.FetchTotalSupply` | components/Minting.tsx:348-370 | the new state is the sale read applied to the old |
| `Minting.MintingComponent.ClaimNFTs` | components/Minting.tsx:58-334 | the new state is the full mint attempt applied to the old, and the returned request is the one `claimNFTs` builds for `paidMint` (none when the guard fails) |
| `Minting.MintingComponent.Catch` | components/Minting.tsx:324-332 | the catch block: pending cleared and `errMsg` as `HandlerErrMsg` gives; the amount stays at least 1 |
| `Minting.ExampleSession` | components/Minting.tsx:15-370 | a client session whose assertions follow from the method contracts alone: an increment at the initial maximum is a no-op, a presale read raises the cap, a confirmed claim submits the amount with `proofOf(account)` and clears both flags |

## Left out

- The Merkle tree, `getHexProof` and `keccak256`, together with the hard-coded allowlist: third-party library code, replaced by the opaque `proofOf`.
- The payment: `Number(cost) * mintAmount` and `ethers.utils.parseEther` are floating-point arithmetic and a foreign conversion; `MintRequest` carries the quantity and proof only.
- The ethers provider, signer and contract calls and `window.ethereum`: chain I/O, replaced by a `ChainOutcome` and a `SaleState` argument. A failure while building the provider or contract is folded into `SubmitFails`.
- The `await` suspension points: a mint attempt is one atomic transition. Stepper clicks between submission and confirmation, and React rendering from stale closure values, are not modelled.
- `Minting.MintingComponent.FetchTotalSupply`: models only a read that succeeds; a contract read that throws part-way (leaving the earlier setters applied) is not modelled.
- The `fetchTotalSupply()` call after a confirmed mint is not awaited and its effects come later; it is a separate `FetchTotalSupply` call, not part of `ClaimNFTs`.
- The runtime narrowing of `unknown`, `JSON.stringify` and its `String` fallback: the serialisation is a given string of the caught value.
- `mintMax` as an ethers `BigNumber` compared with a number: treated as a natural number.
- `JsText.NumberString`: does not model the exponent notation JavaScript uses for integers of 10^21 and above, which an amount never reaches.
- The `useEffect` that runs `fetchTotalSupply` only on the configured network (and otherwise resets the supply to `"?"`), the JSX markup, styling and icons, and the rendering of `message`.
- The contract context behind `message` and `errMsg` is not part of this model; its values on first render are constructor arguments.
- JavaScript strings are sequences of UTF-16 code units; here a `string` is a sequence of `char`. The difference does not matter for the revert prefix, the numbers and hexadecimal addresses, which are ASCII, but `substring` on a message or account with characters outside the Basic Multilingual Plane could split them differently.
- `components/Layout.tsx`: presentational composition only.
