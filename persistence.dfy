/** The per-user document store ("savings" collection, one document per user
    id) seen as a map, the document the page writes, and the fallbacks it
    applies when reading one back. */
module Persistence {
  import opened Ledger

  datatype Option<T> = None | Some(value: T)

  /** A stored document. A field may be absent (or null), since the store
      does not enforce a shape. */
  datatype Doc = Doc(balance: Option<real>, goal: Option<real>, history: Option<seq<Record>>)

  /** The collection: user id to document. */
  type Docs = map<string, Doc>

  /** JavaScript `x || fallback` for a numeric field: a missing field and 0
      both give the fallback. */
  function NumberOr(x: Option<real>, fallback: real): (r: real)
    ensures x.None? || x.value == 0.0 ==> r == fallback
    ensures x.Some? && x.value != 0.0 ==> r == x.value
  {
    if x.Some? && x.value != 0.0 then x.value else fallback
  }

  /** JavaScript `x || []` for the history field: an array, even an empty
      one, is truthy, so only a missing field gives the fallback. */
  function HistoryOr(x: Option<seq<Record>>): (r: seq<Record>)
    ensures x.Some? ==> r == x.value
    ensures x.None? ==> r == []
  {
    match x
    case Some(h) => h
    case None => []
  }

  /** The document written by a save: all three fields of the ledger. */
  function ToDoc(l: LedgerState): (d: Doc)
    ensures d.balance.Some? && d.goal.Some? && d.history.Some?
    ensures l.goal != 0.0 ==> Loaded(d) == l
    ensures l.goal == 0.0 ==> Loaded(d) == l.(goal := DefaultGoal)
  {
    Doc(Some(l.balance), Some(l.goal), Some(l.history))
  }

  /** The ledger a load makes of a stored document, falling back to 0,
      100000 and the empty history for missing or falsy fields. The goal it
      yields is never 0, so the progress ratio is always defined. */
  function Loaded(d: Doc): (l: LedgerState)
    ensures l.goal != 0.0
    ensures d == Doc(None, None, None) ==> l == Initial
    ensures d.balance.Some? && d.balance.value != 0.0 ==> l.balance == d.balance.value
    ensures d.balance.None? || d.balance.value == 0.0 ==> l.balance == 0.0
    ensures d.goal.Some? && d.goal.value != 0.0 ==> l.goal == d.goal.value
    ensures d.goal.None? || d.goal.value == 0.0 ==> l.goal == DefaultGoal
    ensures d.history.Some? ==> l.history == d.history.value
    ensures d.history.None? ==> l.history == []
  {
    LedgerState(NumberOr(d.balance, 0.0), NumberOr(d.goal, DefaultGoal), HistoryOr(d.history))
  }

  /** JavaScript `!userId`: no user, or an empty id, counts as logged out. */
  predicate SignedIn(userId: Option<string>) {
    userId.Some? && userId.value != ""
  }

  /** A save: skipped when logged out, otherwise the user's document is
      replaced by the ledger's; other users' documents are untouched. */
  function Save(docs: Docs, userId: Option<string>, l: LedgerState): (r: Docs)
    ensures !SignedIn(userId) ==> r == docs
    ensures SignedIn(userId) ==>
      && r.Keys == docs.Keys + {userId.value}
      && r[userId.value] == ToDoc(l)
      && (l.goal != 0.0 ==> Loaded(r[userId.value]) == l)
    ensures forall u :: u in docs && !(SignedIn(userId) && u == userId.value) ==> u in r && r[u] == docs[u]
  {
    if SignedIn(userId) then docs[userId.value := ToDoc(l)] else docs
  }

  /** A load: when logged out or when the user has no document the ledger is
      left as it is; otherwise it is replaced, not merged, by the document's. */
  function Load(docs: Docs, userId: Option<string>, l: LedgerState): (r: LedgerState)
    ensures !SignedIn(userId) || userId.value !in docs ==> r == l
    ensures SignedIn(userId) && userId.value in docs ==> r == Loaded(docs[userId.value])
  {
    if SignedIn(userId) && userId.value in docs then Loaded(docs[userId.value]) else l
  }

  /** Every document in the store reads back as a well-formed ledger; this
      holds of a store that only this page has written. */
  predicate StoreOk(docs: Docs) {
    forall u :: u in docs ==> WellFormed(Loaded(docs[u]))
  }

  /** Saving a well-formed ledger keeps the store well-formed. */
  lemma SaveKeepsStoreOk(docs: Docs, userId: Option<string>, l: LedgerState)
    requires StoreOk(docs) && WellFormed(l)
    ensures StoreOk(Save(docs, userId, l))
  {
  }

  /** Loading from a well-formed store keeps a well-formed ledger. */
  lemma LoadKeepsWellFormed(docs: Docs, userId: Option<string>, l: LedgerState)
    requires StoreOk(docs) && WellFormed(l)
    ensures WellFormed(Load(docs, userId, l))
  {
  }

  /** Round trip: loading what a save wrote gives back the saved ledger for a
      signed-in user; when logged out the save was skipped, so the load keeps
      whatever ledger is in memory. */
  lemma SaveThenLoad(docs: Docs, userId: Option<string>, saved: LedgerState, current: LedgerState)
    requires saved.goal != 0.0
    ensures Load(Save(docs, userId, saved), userId, current)
         == if SignedIn(userId) then saved
            else current
  {
  }
}
