/** The savings ledger: balance, goal and a newest-first transaction history,
    and the pure state transitions that the page's buttons apply to them. */
module Ledger {

  /** The default savings goal, used initially, after logout and when a
      stored goal is missing or falsy. */
  const DefaultGoal: real := 100000.0

  /** What `parseFloat` made of a text field: NaN or a number. */
  datatype ParsedNumber = NotANumber | Num(value: real)

  datatype Kind = Saved | Withdrawn

  /** One history entry; `date` and `time` are the locale strings captured
      when the record was made, kept opaque here. */
  datatype Record = Record(kind: Kind, amount: real, date: string, time: string)

  datatype LedgerState = LedgerState(balance: real, goal: real, history: seq<Record>)

  /** Why a button press was turned away (the alert the user sees). */
  datatype Error = InvalidAmount | InsufficientBalance | InvalidGoal

  datatype Outcome = Accepted | Rejected(reason: Error)

  /** The result of one handler: what it reports and the ledger afterwards. */
  datatype Step = Step(outcome: Outcome, after: LedgerState)

  /** The state the page starts in, and the one logout restores. */
  const Initial: LedgerState := LedgerState(0.0, DefaultGoal, [])

  /** JavaScript truthiness of a parsed number: NaN and 0 are falsy. */
  predicate Falsy(p: ParsedNumber) {
    p.NotANumber? || p.value == 0.0
  }

  /** JavaScript `p <= 0`, which is false for NaN. */
  predicate AtMostZero(p: ParsedNumber) {
    p.Num? && p.value <= 0.0
  }

  /** The guard of the save and withdraw buttons: `!amount || amount <= 0`. */
  predicate AmountRejected(p: ParsedNumber)
    ensures AmountRejected(p) <==> !(p.Num? && p.value > 0.0)
  {
    Falsy(p) || AtMostZero(p)
  }

  /** The guard of the set-goal button: `isNaN(newGoal) || newGoal <= 0`. */
  predicate GoalRejected(p: ParsedNumber)
    ensures GoalRejected(p) <==> AmountRejected(p)
  {
    p.NotANumber? || AtMostZero(p)
  }

  /** Sum of the amounts of the records of kind `k`. */
  function Total(h: seq<Record>, k: Kind): (t: real) {
    if h == [] then 0.0
    else (if h[0].kind == k then h[0].amount else 0.0) + Total(h[1..], k)
  }

  /** Saved minus withdrawn over a history. */
  function Net(h: seq<Record>): (n: real) {
    Total(h, Saved) - Total(h, Withdrawn)
  }

  /** The invariants the handlers keep: the balance is what the history adds
      up to, it is never negative, the goal is positive and every recorded
      amount is positive. */
  predicate WellFormed(l: LedgerState) {
    && l.balance == Net(l.history)
    && l.balance >= 0.0
    && l.goal > 0.0
    && forall i :: 0 <= i < |l.history| ==> l.history[i].amount > 0.0
  }

  /** The save button: a valid amount is added to the balance and a `Saved`
      record goes to the head of the history; anything else is rejected. */
  function Deposit(l: LedgerState, input: ParsedNumber, date: string, time: string): (s: Step)
    ensures s.outcome.Rejected? ==> s.after == l && s.outcome.reason == InvalidAmount
    ensures s.outcome.Accepted? <==> input.Num? && input.value > 0.0
    ensures s.outcome.Accepted? ==>
      && s.after.balance == l.balance + input.value
      && s.after.goal == l.goal
      && |s.after.history| == |l.history| + 1
      && s.after.history[0] == Record(Saved, input.value, date, time)
      && s.after.history[1..] == l.history
    ensures WellFormed(l) ==> WellFormed(s.after)
  {
    if AmountRejected(input) then Step(Rejected(InvalidAmount), l)
    else
      var rec := Record(Saved, input.value, date, time);
      Step(Accepted, l.(balance := l.balance + input.value, history := [rec] + l.history))
  }

  /** The withdraw button: an invalid amount is rejected first, then an amount
      above the balance; otherwise it is subtracted and a `Withdrawn` record
      goes to the head of the history. */
  function Withdraw(l: LedgerState, input: ParsedNumber, date: string, time: string): (s: Step)
    ensures s.outcome.Rejected? ==> s.after == l
    ensures s.outcome.Accepted? <==> input.Num? && 0.0 < input.value <= l.balance
    ensures s.outcome == Rejected(InvalidAmount) <==> !(input.Num? && input.value > 0.0)
    ensures s.outcome == Rejected(InsufficientBalance) <==>
      input.Num? && input.value > 0.0 && input.value > l.balance
    ensures s.outcome.Accepted? ==>
      && 0.0 < input.value <= l.balance
      && s.after.balance == l.balance - input.value
      && s.after.balance >= 0.0
      && s.after.goal == l.goal
      && |s.after.history| == |l.history| + 1
      && s.after.history[0] == Record(Withdrawn, input.value, date, time)
      && s.after.history[1..] == l.history
    ensures WellFormed(l) ==> WellFormed(s.after)
  {
    if AmountRejected(input) then Step(Rejected(InvalidAmount), l)
    else if input.value > l.balance then Step(Rejected(InsufficientBalance), l)
    else
      var rec := Record(Withdrawn, input.value, date, time);
      Step(Accepted, l.(balance := l.balance - input.value, history := [rec] + l.history))
  }

  /** The reset button once the user has confirmed: balance and history are
      cleared, the goal is kept. */
  function Reset(l: LedgerState): (r: LedgerState)
    ensures r.balance == 0.0 && r.history == [] && r.goal == l.goal
    ensures l.goal > 0.0 ==> WellFormed(r)
  {
    l.(balance := 0.0, history := [])
  }

  /** The set-goal button: a positive number replaces the goal and nothing
      else changes; NaN or a non-positive value is rejected. */
  function SetGoal(l: LedgerState, input: ParsedNumber): (s: Step)
    ensures s.outcome.Rejected? ==> s.after == l && s.outcome.reason == InvalidGoal
    ensures s.outcome.Accepted? <==> input.Num? && input.value > 0.0
    ensures s.outcome.Accepted? ==>
      s.after == l.(goal := input.value) && s.after.goal > 0.0
    ensures WellFormed(l) ==> WellFormed(s.after)
  {
    if GoalRejected(input) then Step(Rejected(InvalidGoal), l)
    else Step(Accepted, l.(goal := input.value))
  }

  /** The percentage shown in the progress ring, `min(balance / goal * 100, 100)`. */
  function Progress(balance: real, goal: real): (p: real)
    requires goal != 0.0
    ensures p <= 100.0
    ensures goal > 0.0 && balance >= 0.0 ==> 0.0 <= p
    ensures goal > 0.0 ==> (p == 100.0 <==> balance >= goal)
    ensures goal > 0.0 && balance < goal ==> p * goal == balance * 100.0
  {
    var ratio := balance / goal * 100.0;
    if ratio < 100.0 then ratio else 100.0
  }

  /** A press of one of the ledger's buttons, with what the page read at that
      moment. */
  datatype Action =
    | SaveClicked(amount: ParsedNumber, date: string, time: string)
    | WithdrawClicked(amount: ParsedNumber, date: string, time: string)
    | ResetClicked(confirmed: bool)
    | SetGoalClicked(newGoal: ParsedNumber)

  function Apply(l: LedgerState, a: Action): (r: LedgerState) {
    match a
    case SaveClicked(p, d, t) => Deposit(l, p, d, t).after
    case WithdrawClicked(p, d, t) => Withdraw(l, p, d, t).after
    case ResetClicked(ok) => if ok then Reset(l) else l
    case SetGoalClicked(p) => SetGoal(l, p).after
  }

  /** The ledger after a sequence of button presses, oldest first. */
  function Run(l: LedgerState, acts: seq<Action>): (r: LedgerState)
    decreases |acts|
  {
    if acts == [] then l else Run(Apply(l, acts[0]), acts[1..])
  }

  /** Every button keeps the invariants. */
  lemma ApplyKeepsWellFormed(l: LedgerState, a: Action)
    requires WellFormed(l)
    ensures WellFormed(Apply(l, a))
  {
  }

  /** Any sequence of presses keeps the invariants. */
  lemma {:induction false} RunKeepsWellFormed(l: LedgerState, acts: seq<Action>)
    requires WellFormed(l)
    ensures WellFormed(Run(l, acts))
    decreases |acts|
  {
    if acts != [] {
      ApplyKeepsWellFormed(l, acts[0]);
      RunKeepsWellFormed(Apply(l, acts[0]), acts[1..]);
    }
  }

  /** From the page's initial state, after any sequence of presses the balance
      is the saved total minus the withdrawn total of the history, it is not
      negative and the goal is positive. */
  lemma {:induction false} BalanceIsSavedMinusWithdrawn(acts: seq<Action>)
    ensures Run(Initial, acts).balance
         == Total(Run(Initial, acts).history, Saved) - Total(Run(Initial, acts).history, Withdrawn)
    ensures Run(Initial, acts).balance >= 0.0 && Run(Initial, acts).goal > 0.0
  {
    RunKeepsWellFormed(Initial, acts);
  }

  /** The press `a` is turned away in state `l` (or the reset dialog was declined). */
  predicate RejectedAt(l: LedgerState, a: Action) {
    match a
    case SaveClicked(p, d, t) => Deposit(l, p, d, t).outcome.Rejected?
    case WithdrawClicked(p, d, t) => Withdraw(l, p, d, t).outcome.Rejected?
    case ResetClicked(ok) => !ok
    case SetGoalClicked(p) => SetGoal(l, p).outcome.Rejected?
  }

  /** A sequence of presses that are all turned away leaves the ledger as it was. */
  lemma {:induction false} RejectedRunChangesNothing(l: LedgerState, acts: seq<Action>)
    requires forall i :: 0 <= i < |acts| ==> RejectedAt(l, acts[i])
    ensures Run(l, acts) == l
    decreases |acts|
  {
    if acts != [] {
      assert RejectedAt(l, acts[0]);
      assert Apply(l, acts[0]) == l;
      RejectedRunChangesNothing(l, acts[1..]);
    }
  }

  /** Deposits of 5000 and 3000 then a withdrawal of 1000 leave 7000, with the
      history newest first. */
  lemma DepositDepositWithdrawScenario(d: string, t: string)
    ensures
      var acts := [SaveClicked(Num(5000.0), d, t), SaveClicked(Num(3000.0), d, t),
                   WithdrawClicked(Num(1000.0), d, t)];
      var l := Run(Initial, acts);
      l.balance == 7000.0 && l.goal == DefaultGoal
      && l.history == [Record(Withdrawn, 1000.0, d, t), Record(Saved, 3000.0, d, t),
                       Record(Saved, 5000.0, d, t)]
  {
    var acts := [SaveClicked(Num(5000.0), d, t), SaveClicked(Num(3000.0), d, t),
                 WithdrawClicked(Num(1000.0), d, t)];
    var l1 := Apply(Initial, acts[0]);
    var l2 := Apply(l1, acts[1]);
    var l3 := Apply(l2, acts[2]);
    assert Run(Initial, acts) == Run(l1, acts[1..]);
    assert Run(l1, acts[1..]) == Run(l2, acts[2..]);
    assert Run(l2, acts[2..]) == Run(l3, []);
  }

  /** A balance of 25000 against the default goal shows 25 percent; a balance
      at or past the goal shows 100. */
  lemma ProgressScenario(balance: real)
    requires balance >= DefaultGoal
    ensures Progress(25000.0, DefaultGoal) == 25.0
    ensures Progress(balance, DefaultGoal) == 100.0
  {
  }
}
