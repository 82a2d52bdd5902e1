/** The page's mutable state and its event handlers: the signed-in user id,
    the ledger fields that the buttons reassign, and the remote store that
    the ledger buttons write through to while a user is signed in. */
module App {
  import opened Ledger
  import opened Persistence

  /** The remote document store; its contents change only by `Put`. */
  class Store {
    var docs: Docs

    constructor (initial: Docs)
      ensures docs == initial
    {
      docs := initial;
    }

    /** Replace one user's document. */
    method Put(userId: string, d: Doc)
      modifies this
      ensures docs == old(docs)[userId := d]
    {
      docs := docs[userId := d];
    }
  }

  class SavingsApp {
    var userId: Option<string>
    var balance: real
    var goal: real
    var history: seq<Record>
    const store: Store

    /** The ledger part of the state, as a value. */
    function State(): LedgerState
      reads this
    {
      LedgerState(balance, goal, history)
    }

    /** The ledger invariants hold and the store holds only documents that
        read back as well-formed ledgers. */
    ghost predicate Valid()
      reads this, store
    {
      WellFormed(State()) && StoreOk(store.docs)
    }

    /** Page load: logged out, balance 0, goal 100000, empty history. */
    constructor (store: Store)
      requires StoreOk(store.docs)
      ensures Valid()
      ensures this.store == store && userId == None && State() == Initial
    {
      this.store := store;
      userId := None;
      balance := 0.0;
      goal := DefaultGoal;
      history := [];
    }

    /** Write the ledger to the user's document, or skip when logged out. */
    method SaveData()
      requires Valid()
      modifies store
      ensures Valid()
      ensures store.docs == Save(old(store.docs), userId, State())
    {
      if !SignedIn(userId) {
        return;
      }
      SaveKeepsStoreOk(store.docs, userId, State());
      store.Put(userId.value, ToDoc(State()));
    }

    /** Replace the ledger by the user's stored document, if logged in and
        one exists; otherwise leave it as it is. */
    method LoadData()
      requires Valid()
      modifies this
      ensures Valid()
      ensures userId == old(userId)
      ensures State() == Load(store.docs, userId, old(State()))
    {
      if !SignedIn(userId) {
        return;
      }
      LoadKeepsWellFormed(store.docs, userId, State());
      if userId.value in store.docs {
        var data := store.docs[userId.value];
        balance := NumberOr(data.balance, 0.0);
        goal := NumberOr(data.goal, DefaultGoal);
        history := HistoryOr(data.history);
      }
    }

    /** Put a record at the head of the history, then save. */
    method AddHistory(kind: Kind, amount: real, date: string, time: string)
      requires WellFormed(State().(history := [Record(kind, amount, date, time)] + history))
      requires StoreOk(store.docs)
      modifies this, store
      ensures Valid()
      ensures userId == old(userId) && balance == old(balance) && goal == old(goal)
      ensures history == [Record(kind, amount, date, time)] + old(history)
      ensures store.docs == Save(old(store.docs), userId, State())
    {
      history := [Record(kind, amount, date, time)] + history;
      SaveData();
    }

    /** The save button. */
    method Deposit(amount: ParsedNumber, date: string, time: string) returns (r: Outcome)
      requires Valid()
      modifies this, store
      ensures Valid()
      ensures userId == old(userId)
      ensures r == Ledger.Deposit(old(State()), amount, date, time).outcome
      ensures State() == Ledger.Deposit(old(State()), amount, date, time).after
      ensures store.docs == if r.Accepted? then Save(old(store.docs), userId, State())
                            else old(store.docs)
    {
      if AmountRejected(amount) {
        return Rejected(InvalidAmount);
      }
      balance := balance + amount.value;
      AddHistory(Saved, amount.value, date, time);
      r := Accepted;
    }

    /** The withdraw button. */
    method Withdraw(amount: ParsedNumber, date: string, time: string) returns (r: Outcome)
      requires Valid()
      modifies this, store
      ensures Valid()
      ensures userId == old(userId)
      ensures r == Ledger.Withdraw(old(State()), amount, date, time).outcome
      ensures State() == Ledger.Withdraw(old(State()), amount, date, time).after
      ensures store.docs == if r.Accepted? then Save(old(store.docs), userId, State())
                            else old(store.docs)
    {
      if AmountRejected(amount) {
        return Rejected(InvalidAmount);
      }
      if amount.value > balance {
        return Rejected(InsufficientBalance);
      }
      balance := balance - amount.value;
      AddHistory(Withdrawn, amount.value, date, time);
      r := Accepted;
    }

    /** The reset button; `confirmed` is the user's answer to the dialog. */
    method Reset(confirmed: bool)
      requires Valid()
      modifies this, store
      ensures Valid()
      ensures userId == old(userId)
      ensures State() == if confirmed then Ledger.Reset(old(State())) else old(State())
      ensures store.docs == if confirmed then Save(old(store.docs), userId, State())
                            else old(store.docs)
    {
      if confirmed {
        balance := 0.0;
        history := [];
        SaveData();
      }
    }

    /** The set-goal button. */
    method SetGoal(newGoal: ParsedNumber) returns (r: Outcome)
      requires Valid()
      modifies this, store
      ensures Valid()
      ensures userId == old(userId)
      ensures r == Ledger.SetGoal(old(State()), newGoal).outcome
      ensures State() == Ledger.SetGoal(old(State()), newGoal).after
      ensures store.docs == if r.Accepted? then Save(old(store.docs), userId, State())
                            else old(store.docs)
    {
      if GoalRejected(newGoal) {
        return Rejected(InvalidGoal);
      }
      goal := newGoal.value;
      SaveData();
      r := Accepted;
    }

    /** The login button; `signedIn` is the user id the sign-in popup
        returned, or None when it failed (the page only alerts then). */
    method Login(signedIn: Option<string>)
      requires Valid()
      modifies this
      ensures Valid()
      ensures signedIn.None? ==> userId == old(userId) && State() == old(State())
      ensures signedIn.Some? ==>
        userId == signedIn && State() == Load(store.docs, signedIn, old(State()))
    {
      if signedIn.Some? {
        userId := signedIn;
        LoadData();
      }
    }

    /** The logout button; `signedOut` says whether the awaited sign-out
        succeeded. If it did, the user id is cleared and the ledger goes back
        to its initial values, and nothing is saved; if it failed, the
        handler stops before any assignment and nothing changes. */
    method Logout(signedOut: bool)
      requires Valid()
      modifies this
      ensures Valid()
      ensures signedOut ==> userId == None && State() == Initial
      ensures !signedOut ==> userId == old(userId) && State() == old(State())
    {
      if !signedOut {
        return;
      }
      userId := None;
      balance := 0.0;
      goal := DefaultGoal;
      history := [];
    }

    /** The auth-state listener: with a user, sign in and load; without one,
        only the user id is cleared and the ledger stays as it is. */
    method AuthStateChanged(user: Option<string>)
      requires Valid()
      modifies this
      ensures Valid()
      ensures user.None? ==> userId == None && State() == old(State())
      ensures user.Some? ==>
        userId == user && State() == Load(store.docs, user, old(State()))
    {
      if user.Some? {
        userId := user;
        LoadData();
      } else {
        userId := None;
      }
    }
  }

  /** A client session: a signed-in user saves, logs out, and on signing in
      again gets the saved ledger back from the store, whose document keeps
      the deposit's record at the head of its history. */
  method SaveLogoutLoginRestores(store: Store, uid: string, d: string, t: string)
    requires uid != "" && StoreOk(store.docs)
    modifies store
    ensures uid in store.docs
    ensures var h := Loaded(store.docs[uid]).history; h != [] && h[0] == Record(Saved, 5000.0, d, t)
  {
    var app := new SavingsApp(store);
    app.AuthStateChanged(Some(uid));
    var r := app.Deposit(Num(5000.0), d, t);
    var kept := app.State();
    assert r == Accepted;
    app.Logout(true);
    app.Login(Some(uid));
    assert app.State() == kept;
  }
}
