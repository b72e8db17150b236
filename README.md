# Pool-creation form controller of the Barrels dashboard

This project models the controller behind the "Brew a new Barrel" dialog
(`CreateModal` in `src/pages/Barrels/Create.tsx`). The dialog keeps a draft of
the new pool's parameters in React state cells. It validates the draft with one
message at a time. It derives the bonus-token candidates from the network's
token list. On submit it converts the draft into the eight string arguments of
the factory contract's `create` and raises an `isCreating` flag around the
awaited call.

Modules:

- `Wrappers`: `Option` (JavaScript `null`) and `Result` (a value or a thrown error).
- `Decimal`: how an integer is rendered by `toString()` (sign, then digits without
  leading zeros), with a reader and the round trip between them.
- `Splice`: `Array.prototype.splice(start, 1)` applied to a copy of a list.
- `CreateForm`: the pure part. It holds the `Draft` value, the validator
  `ErrorMessage`, `BonusTokenOptions`, `BonusTokenAddress`, the argument
  derivation `CreateCall` and the wallet-user effect `WithWalletUser`.
- `CreateModal`: the class `CreateModalState`. Its fields are the dialog's state
  cells. It has their setters, the wallet-user effect, and `handleCreate` split
  at its `await` into `BeginCreate` and `FinishCreate`.

The model treats the outside world as follows:

- `web3.utils.isAddress` is a parameter `isAddress: string -> bool`.
- The clock `moment().unix()` is a parameter `now`. The validator is memoised on the validated fields and the wallet's `web3` client, not on the clock, so `now` is the clock reading when the validator last ran: when `CreateModal` mounts (it stays mounted while the dialog is closed, Create.tsx:54), and at each change of fee, penalty, the wallet's `web3` client, recipient, expiry or locking period. It is not the time of the click.
- The default expiry ("one year from now" at mount, computed by the date library) is a
  constructor parameter.
- The draft's initial values are set once, when `CreateModal` mounts together with the Create button (it stays mounted while the dialog is closed, Create.tsx:54). Closing and reopening the dialog keeps the previous draft, including a stale `selectedBonusIdx`.
- The per-network list `tokens[networkId]` is a parameter `tokens: seq<Token>`.
- How the awaited factory `create` settles is a `Settlement` parameter. The
  contracts hold for every settlement, which models a nondeterministic outcome.
- Percentages, days, expiry and N are whole numbers.

In two places the code does not do what the dialog is meant to do. The model
follows the code:

- The locking window is meant to start strictly after `now`. The code only
  rejects `expiry - 86400 * days < now`, so a window that starts exactly at
  `now` is accepted.
- The `finally` block is meant to clear the submitting flag on every outcome.
  The bonus-token lookup runs before the `try`, so a lookup that throws leaves
  the flag raised (see Findings).

## Model

| member | source | states |
|---|---|---|
| `Decimal.NatString` | src/pages/Barrels/Create.tsx:104-108 | the numeral of a natural number is non-empty, all digits, and starts with `0` only for zero, which renders as `"0"` |
| `Decimal.DecimalString` | src/pages/Barrels/Create.tsx:104-108 | an integer's string form is non-empty and starts with `-` exactly when the integer is negative |
| `Decimal.NatStringRoundTrip` | src/pages/Barrels/Create.tsx:104-108 | reading the digits of a natural number's numeral gives the number back |
| `Decimal.DecimalRoundTrip` | src/pages/Barrels/Create.tsx:104-108 | every integer argument string handed to `create` reads back as the integer it was made from |
| `Decimal.DecimalStringInjective` | src/pages/Barrels/Create.tsx:104-108 | different integers give different argument strings |
| `Splice.SpliceStart` | src/pages/Barrels/Create.tsx:94 | `splice` starts at `start` when it lies in the list, counts a negative start back from the end, and clamps to `[0, len]` |
| `Splice.SpliceOne` | src/pages/Barrels/Create.tsx:93-95 | the copy loses one element exactly when the start lies inside the list; elements before it stay in place and later ones shift down by one |
| `Splice.SpliceOneRemovesOne` | src/pages/Barrels/Create.tsx:94 | the removed element plus what remains is the original list as a multiset |
| `CreateForm.ErrorMessage` | src/pages/Barrels/Create.tsx:84-90 | `null` exactly when the draft is valid; the fee message exactly when the fee is outside [0,100], whatever else holds; the penalty message exactly when the fee is in range and the penalty is not; the recipient message exactly when both are in range and the address is invalid; the window message exactly when the first three pass and the window starts before `now` |
| `CreateForm.DefaultDraftValidity` | src/pages/Barrels/Create.tsx:66-90 | the draft `CreateModal` mounts with is valid exactly when the user is an address and the expiry is at least 30 days (2592000 s) after `now` |
| `CreateForm.LockingWindowExample` | src/pages/Barrels/Create.tsx:88 | a 30-day window on a pool expiring 10 days from now yields the window message |
| `CreateForm.LockingWindowBoundary` | src/pages/Barrels/Create.tsx:88-89 | a window starting exactly at `now` passes, so the result is `null` |
| `CreateForm.BonusTokenOptions` | src/pages/Barrels/Create.tsx:92-96 | for a selected index inside the list, the candidates are the list without that entry and one shorter; past the end, the whole list |
| `CreateForm.BonusTokenOptionsPermutation` | src/pages/Barrels/Create.tsx:92-96 | the candidates plus the selected token are exactly the network's token list |
| `CreateForm.BonusTokenOptionsKeepOrder` | src/pages/Barrels/Create.tsx:92-96 | candidates keep their relative order and come from positions other than the selected one |
| `CreateForm.BonusTokenOptionsExcludeSelected` | src/pages/Barrels/Create.tsx:92-96 | with distinct token addresses, no candidate has the selected token's address |
| `CreateForm.BonusTokenAddress` | src/pages/Barrels/Create.tsx:100 | index -1 gives the zero address; an index inside the candidates gives that candidate's address; any other index throws |
| `CreateForm.BonusTokenIsNotMainToken` | src/pages/Barrels/Create.tsx:100-103 | with distinct addresses, a chosen bonus token never has the main token's address |
| `CreateForm.CreateCallArguments` | src/pages/Barrels/Create.tsx:100-110 | the bonus lookup throws exactly when the bonus index is neither -1 nor a candidate position; otherwise the main token lookup throws exactly when the selected index is outside the list; `create` is reached exactly when both lookups succeed, and then receives the selected token, the recipient, the bonus address, and strings that read back as penalty x 10, days x 86400, the expiry, fee x 10 and N |
| `CreateForm.DefaultCreateCall` | src/pages/Barrels/Create.tsx:102-110 | with the defaults, `create` receives penalty `"200"`, fee `"200"`, window `"2592000"`, N `"1"`, the user as recipient and the zero address as bonus token |
| `CreateForm.WithWalletUser` | src/pages/Barrels/Create.tsx:80-82 | a non-empty user replaces the recipient, even one typed by hand; an empty user changes nothing; no other field changes |
| `CreateModal.Completes` | src/pages/Barrels/Create.tsx:98-114 | `handleCreate` resolves exactly when the arguments were derived and `create` resolved; otherwise it rethrows the lookup error or the factory's rejection |
| `CreateModal.CreateModalState.constructor` | src/pages/Barrels/Create.tsx:62-77 | `CreateModal` mounts idle (it stays mounted while the dialog is closed, Create.tsx:54), with token 0, no bonus token, a 30-day window, 20 % penalty and fee, N = 1 and the user as recipient |
| `CreateModal.CreateModalState.CreateDisabled` | src/pages/Barrels/Create.tsx:244 | the Create button is disabled exactly when the validator returns a message, that is, when the draft is invalid |
| `CreateModal.CreateModalState.SetSelectedIdx` | src/pages/Barrels/Create.tsx:138-139 | only the selected token index changes |
| `CreateModal.CreateModalState.SetSelectedBonusIdx` | src/pages/Barrels/Create.tsx:234-235 | only the bonus index changes |
| `CreateModal.CreateModalState.SetExpiry` | src/pages/Barrels/Create.tsx:150-153 | only the expiry changes |
| `CreateModal.CreateModalState.SetLockingDays` | src/pages/Barrels/Create.tsx:167 | only the locking period changes |
| `CreateModal.CreateModalState.SetFeeRecipient` | src/pages/Barrels/Create.tsx:178 | only the recipient changes |
| `CreateModal.CreateModalState.SetPenalty` | src/pages/Barrels/Create.tsx:191 | only the penalty changes |
| `CreateModal.CreateModalState.SetFee` | src/pages/Barrels/Create.tsx:208 | only the fee changes |
| `CreateModal.CreateModalState.SetN` | src/pages/Barrels/Create.tsx:225 | only N changes |
| `CreateModal.CreateModalState.OnUserChanged` | src/pages/Barrels/Create.tsx:80-82 | the draft becomes `WithWalletUser` of the old draft |
| `CreateModal.CreateModalState.BeginCreate` | src/pages/Barrels/Create.tsx:99-110 | the flag is raised, so it is up while `create` is pending; the derived call is `CreateCall` of the unchanged draft |
| `CreateModal.CreateModalState.FinishCreate` | src/pages/Barrels/Create.tsx:112-114 | the `finally` clears the flag and leaves the draft alone |
| `CreateModal.CreateModalState.HandleCreate` | src/pages/Barrels/Create.tsx:98-114 | as written: the draft is unchanged; whenever `create` is called the flag ends cleared, whether it resolves or rejects; the flag stays raised exactly when the bonus lookup throws |
| `CreateModal.CreateModalState.HandleCreateReleasing` | src/pages/Barrels/Create.tsx:98-114 | corrected: the flag ends cleared on every outcome, with the same call and completion as `HandleCreate` |
| `CreateModal.StaleBonusIndexThrowsBeforeTry` | src/pages/Barrels/Create.tsx:92-100 | bonus index 0 kept from a longer list makes the lookup throw on a one-token network |

## Left out

- Rendering: the JSX, the `@aragon/ui` widgets, and the `setOpen(true)` workaround that keeps the dialog open.
- Date handling: `moment` parsing and formatting of the expiry input, and its 08:00 UTC adjustment. Expiry and `now` are plain integers.
- Input coercion: the text inputs store raw strings, and `parseInt` can give `NaN`. Only whole-number inputs are modelled, so string comparison and `NaN` are not.
- Fractional percentages: `BigNumber(penalty * 10).integerValue()` on a fractional percentage goes through floating-point multiplication and rounding. With whole-number inputs whose products stay below 2^53 in magnitude it is the identity, and that is all the model covers.
- `CreateForm.CreateCallArguments`: does not model that JavaScript numbers are IEEE-754 doubles. `penalty * 10`, `fee * 10` and `lockingPeriodDays * 86400` are rounded once the product passes 2^53 in magnitude, so the source can pass a numeral that differs from the exact product; the model uses exact integers.
- `CreateForm.ErrorMessage`: does not model the double rounding of `86400 * lockingPeriodDays` and of `expiry - …` in the window check beyond 2^53 in magnitude; the model compares exact integers.
- `CreateModal.CreateModalState.CreateDisabled`: `now` is the clock reading when the memoised validator was last recomputed, not the time the button is clicked. A window that starts while the dialog sits unedited leaves the button enabled in the source; the model does not capture the clock moving between recomputations.
- `Decimal.DecimalString`: does not model the exponential notation that `BigNumber` and `Number` use for magnitudes of 10^21 and above.
- Address validation, the factory contract and the wallet are foreign code. `isAddress` is a parameter, and the factory's answer is a `Settlement` parameter.
- The token registry `tokens` and `ZERO_ADDR` come from `src/constants`, which is not part of this model. `ZERO_ADDR` is taken to be the usual all-zero 20-byte address. A `networkId` missing from the registry is not modelled.
- Concurrent submissions: the Create button stays enabled while `isCreating` is true (it is disabled only by a validation message, Create.tsx:244), so a second click starts an overlapping `handleCreate`, and the first call's `finally` clears the flag while the second call is still pending. `BeginCreate`'s "the flag is up while `create` is pending" holds only for submissions that do not overlap. Interleavings are not modelled.
- `src/components/NavBar/ConnectButton.tsx`, `src/components/SideBar/index.tsx` and `src/contexts/wallet.ts`: wallet-connection UI, navigation and a context wrapper, with no controller logic.

## Findings

| source | as written | input that shows it | evidently intended | confidence | as-written member | corrected member |
|---|---|---|---|---|---|---|
| src/pages/Barrels/Create.tsx:99-114 | `bonusTokenOptions[selectedBonusIdx].id` is read after `setIsCreating(true)` but before `try`, so an undefined candidate throws a `TypeError` that skips the `finally` and leaves `isCreating` true | choose bonus index 0 on a network with two tokens, then switch the wallet to a network with one token (the index is not reset, and the candidates are empty) | the flag is cleared on every outcome, as the `finally` intends | medium, not executed | `CreateModal.CreateModalState.HandleCreate` with `CreateModal.StaleBonusIndexThrowsBeforeTry` | `CreateModal.CreateModalState.HandleCreateReleasing` |
