# Savings tracker ledger, modelled in Dafny

A model of the savings web page's ledger state machine. The page keeps four
module-level variables: the signed-in user id, the balance, the savings goal
(100000 at first) and a newest-first history of `Saved`/`Withdrawn` records.
Its buttons change them: save (deposit), withdraw, reset, set goal, login
and logout, plus the auth-state listener. Changes from the save, withdraw,
reset and set-goal buttons are written through to a per-user document in a
remote store while a user is signed in. Logout and loads change the ledger
without saving. Signing in loads that document, with fallbacks for missing
or falsy fields.

Files:

- `ledger.dfy`, module `Ledger`: the ledger as a value (`LedgerState`). Each
  button is a pure transition (`Deposit`, `Withdraw`, `Reset`, `SetGoal`)
  returning an `Outcome` and the new state. `Progress` is the progress
  percentage. `WellFormed` is the invariant: balance = saved total minus
  withdrawn total, balance ≥ 0, goal > 0, every recorded amount > 0. There
  are lemmas about arbitrary sequences of button presses (`Run`).
- `persistence.dfy`, module `Persistence`: the stored document (`Doc`, whose
  fields may be absent) and the store as a map from user id to document.
  It holds the write (`ToDoc`, `Save`), the read with its `x || default`
  fallbacks (`Loaded`, `Load`), and the save/load round trip.
- `app.dfy`, module `App`: the imperative page. Class `SavingsApp` holds the
  four variables as fields and has one method per handler. Class `Store`
  holds the remote documents. Each handler's `ensures` ties the new ledger
  to the pure transition applied to the old one, and the new store to
  `Save`. Each handler also keeps `Valid()`: the ledger is well-formed and
  every stored document reads back as a well-formed ledger.

Modelling choices:

- Amounts and the goal are `real`, not floating point. The text fields'
  `parseFloat` results are `ParsedNumber`: `NotANumber` or `Num(v)`.
- The guards are written as the page writes them: `!amount || amount <= 0`
  for amounts and `isNaN(g) || g <= 0` for the goal. Both are proved to
  accept exactly the positive numbers.
- The `!userId` check that guards saving and loading also treats an empty
  id as logged out (`SignedIn`).
- Load fallbacks follow JavaScript `||`. A stored balance of 0 or a missing
  one gives 0. A stored goal of 0 or a missing one gives 100000. A missing
  history gives `[]`, but an empty stored history is kept as it is. A
  stored negative goal would be kept, so the invariant needs the store to
  hold only documents this page wrote (`StoreOk`). The constructor asks for
  that.
- Reset keeps the goal, as the page does. Logout waits for sign-out; if that
  succeeds it restores all defaults and does not save, and if it fails
  nothing changes. The auth listener with no user clears only the user id.
- Dates and times are opaque strings passed in by the caller. The
  confirmation dialog's answer is a boolean parameter. The sign-in popup's
  result is an optional user id, and the sign-out's success a boolean.
- Progress has no division-by-zero guard in the page. The model does not
  add one. Instead it requires `goal != 0`, which always holds: set-goal
  accepts only positive goals, and `Loaded` never yields 0.

## Model

| member | source | states |
|---|---|---|
| `Ledger.AmountRejected` | script.js:84-85 | `!amount or amount <= 0` holds exactly when the parsed input is NaN or not positive |
| `Ledger.GoalRejected` | script.js:200-201 | `isNaN(g) or g <= 0` rejects exactly the same inputs as the amount guard |
| `Ledger.Deposit` | script.js:83-88 | accepted iff the amount is a positive number. Accepted: balance grows by exactly the amount, goal is kept, and one `Saved` record with the given date and time goes to the head with the old history as the tail. Rejected: `InvalidAmount` and nothing changes. Well-formedness is preserved |
| `Ledger.Withdraw` | script.js:91-97 | accepted iff the amount is a number with 0 < amount ≤ balance. NaN or non-positive gives `InvalidAmount`. A valid amount above the balance gives `InsufficientBalance` (both directions). Rejected changes nothing. Accepted: balance drops by the amount and stays ≥ 0, goal is kept, and one `Withdrawn` record goes to the head. Well-formedness is preserved |
| `Ledger.Reset` | script.js:100-107 | balance becomes 0, history becomes empty, goal is untouched, and the result is well-formed whenever the goal is positive |
| `Ledger.SetGoal` | script.js:199-209 | accepted iff the input is a positive number, and then only the goal changes, to that value. Otherwise `InvalidGoal` and nothing changes. Well-formedness (goal > 0) is preserved |
| `Ledger.Progress` | script.js:148-149 | at most 100. In [0, 100] for a positive goal and non-negative balance. Equals 100 exactly when balance ≥ goal. Below the goal it is balance·100/goal |
| `Ledger.ApplyKeepsWellFormed` | script.js:83-209 | any one button press keeps balance = saved − withdrawn, balance ≥ 0, goal > 0 and positive amounts |
| `Ledger.RunKeepsWellFormed` | script.js:83-209 | any sequence of button presses from a well-formed ledger keeps it well-formed |
| `Ledger.BalanceIsSavedMinusWithdrawn` | script.js:28-209 | from the initial state (0, 100000, []), after any sequence of deposits, withdrawals, resets and goal changes, balance = sum of `Saved` amounts − sum of `Withdrawn` amounts in the history, balance ≥ 0 and goal > 0 |
| `Ledger.RejectedRunChangesNothing` | script.js:83-209 | a sequence of presses that are all rejected (or resets that were declined) leaves balance, goal and history unchanged |
| `Ledger.DepositDepositWithdrawScenario` | script.js:83-97 | deposit 5000, deposit 3000, withdraw 1000 gives balance 7000 and history [Withdrawn 1000, Saved 3000, Saved 5000] |
| `Ledger.ProgressScenario` | script.js:149 | 25000 against the goal 100000 shows 25, and any balance at or past the goal shows 100 |
| `Persistence.NumberOr` | script.js:185-186 | `x or fallback`: a present non-zero value is kept; a missing value or a stored 0 gives the fallback |
| `Persistence.HistoryOr` | script.js:187 | `history or []`: a stored history, even an empty one, is kept, and a missing one gives `[]` |
| `Persistence.ToDoc` | script.js:167-171 | the saved document has all three fields. Reading it back gives the same ledger whenever the goal is non-zero; a goal of 0 would read back as 100000 |
| `Persistence.Loaded` | script.js:183-187 | field by field: a stored non-zero balance is kept, a missing or 0 balance gives 0; a stored non-zero goal (even a negative one) is kept, a missing or 0 goal gives 100000; a stored history (even empty) is kept, a missing one gives []. The loaded goal is never 0 |
| `Persistence.Save` | script.js:161-176 | logged out (no id or an empty id): the store is unchanged. Signed in: exactly that user's document is replaced, it reads back as the saved ledger, and other users' documents are untouched |
| `Persistence.Load` | script.js:179-196 | logged out, or no document for the user: the ledger is unchanged. Otherwise it is replaced (not merged) by the loaded document |
| `Persistence.SaveKeepsStoreOk` | script.js:161-176 | saving a well-formed ledger keeps every stored document well-formed when read back |
| `Persistence.LoadKeepsWellFormed` | script.js:179-196 | loading from such a store keeps the ledger well-formed |
| `Persistence.SaveThenLoad` | script.js:161-196 | a load after a save, for the same signed-in user, gives back exactly the saved balance, goal and history. When logged out the in-memory ledger stays |
| `App.Store.Put` | script.js:167 | replaces one key of the store |
| `App.SavingsApp.constructor` | script.js:27-30 | starts logged out with balance 0, goal 100000 and an empty history |
| `App.SavingsApp.SaveData` | script.js:161-176 | the store becomes `Save(old store, userId, ledger)`, the ledger is untouched, and the store stays well-formed |
| `App.SavingsApp.LoadData` | script.js:179-196 | the ledger becomes `Load(store, userId, old ledger)`, the user id is kept, and the invariant holds |
| `App.SavingsApp.AddHistory` | script.js:110-125 | the record goes to the head of the history, balance and goal are kept, then the ledger is saved |
| `App.SavingsApp.Deposit` | script.js:83-88 | the outcome and new ledger are those of `Ledger.Deposit`. The store is written only when the deposit was accepted. The user id is kept |
| `App.SavingsApp.Withdraw` | script.js:91-97 | the outcome and new ledger are those of `Ledger.Withdraw`. The store is written only when the withdrawal was accepted |
| `App.SavingsApp.Reset` | script.js:100-107 | when confirmed, the new ledger is `Ledger.Reset` of the old and it is saved. When declined, nothing changes |
| `App.SavingsApp.SetGoal` | script.js:199-209 | the outcome and new ledger are those of `Ledger.SetGoal`. The store is written only when the goal was accepted |
| `App.SavingsApp.Login` | script.js:37-49 | a failed sign-in changes nothing. A successful one sets the user id and loads that user's document |
| `App.SavingsApp.Logout` | script.js:52-62 | when sign-out succeeds, the user id is cleared and balance 0, goal 100000 and an empty history are restored, with nothing saved. When it fails, the handler stops and nothing changes |
| `App.SavingsApp.AuthStateChanged` | script.js:65-78 | with a user: set the id and load. Without one: clear the id and keep balance, goal and history |
| `App.SaveLogoutLoginRestores` | script.js:37-125 | a client session: sign in, deposit 5000, log out, sign in again. afterwards the user has a stored document, and its history starts with the deposit's `Saved` record (the body also checks that the deposit is accepted and that the second sign-in brings back the same ledger) |

## Left out

- App.SavingsApp.constructor and `Valid`: the class covers only stores whose documents all read back as well-formed ledgers (`StoreOk`), which holds of a store only this page has written. A store holding, say, `{balance: 5}` with no history, or a negative goal, is opened by the page without complaint but is outside the class's invariant; `Persistence.Load` and `Persistence.Loaded` describe loading such documents.

- Firebase sign-in, sign-out and listener registration are external SDK calls. Only their effect on the user id and the ledger is modelled; the display name and photo are not used by the ledger.
- Remote write and read failures are caught and logged by the page. A failed write leaves the store as it was, and a failed read acts like a missing document. The model has the store calls always succeed.
- Saves and loads are asynchronous and not awaited in the page. The model applies each one at the moment it is issued, so it does not capture a late load that overwrites newer changes, or writes that arrive out of order.
- All rendering is left out: DOM updates, currency formatting, the progress ring's gradient and `Math.round` of the percentage, and clearing the input fields.
- Date and time capture (`new Date()` with locale formatting) is left out; date and time are opaque parameters.
- JavaScript number semantics are left out: rounding drift, `Infinity` (which `parseFloat` can return and the amount guard lets through), and NaN stored in a document.
- The store's document ids and collection name: the store is one map for the "savings" collection, keyed by user id.
