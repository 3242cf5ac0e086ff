/** The notification centre: toast notifications under numeric ids from a
    counter, and transactions tracked under their hash from "pending" to a
    single decision. The delayed removals (a fade, then the element is
    detached and the entry deleted) are explicit later steps. */
module Notifications {
  import opened Chains

  const NOTIFICATION_DURATION: int := 5000
  const TRANSACTION_REMOVE_DELAY: int := 5000

  datatype Notice = Notice(message: string, kind: string, duration: int, hiding: bool)

  datatype TxStatus = Pending | Success | Failed

  /** A submitted transaction as the wallet hands it over. */
  datatype TxHandle = TxHandle(hash: string, chainId: int)

  datatype TxEntry = TxEntry(
    tx: TxHandle,
    caption: string,
    status: TxStatus,
    autoRemove: bool,
    removeDelay: int,
    explorerLink: string,
    shortHash: string,
    hiding: bool)

  /** How the transaction's `wait()` settled. */
  datatype WaitOutcome = Receipt(status: int) | WaitRejected(message: string)

  /** Whether each callback passed to `track` throws when it is called; an
      absent callback never throws. */
  datatype Hooks = Hooks(pendingThrows: bool, successThrows: bool, errorThrows: bool)

  datatype Callback = OnPending | OnSuccess | OnError

  /** One running `watchTransaction`: the hash it watches and the options it
      closed over when `track` started it. */
  datatype Watch = Watch(id: string, hooks: Hooks, autoRemove: bool, removeDelay: int)

  /** What the rest of a watch does: the callbacks it calls, the statuses it
      writes (in order) and whether it schedules the removal. */
  datatype Settlement = Settlement(calls: seq<Callback>, statuses: seq<TxStatus>, removal: bool)

  /** The decision a settled `wait()` leads to: status 1 is success,
      every other status and every rejection is failure. */
  function Decide(outcome: WaitOutcome): (s: TxStatus)
    ensures s == Success <==> outcome.Receipt? && outcome.status == 1
    ensures s != Pending
  {
    if outcome.Receipt? && outcome.status == 1 then Success else Failed
  }

  /** The entry `track` creates for a new hash. */
  function NewEntry(tx: TxHandle, caption: string, autoRemove: bool, removeDelay: int): (e: TxEntry)
    ensures e.status == Pending && !e.hiding && e.tx == tx
    ensures e.explorerLink == ExplorerUrl(Registry, tx.hash, tx.chainId)
  {
    TxEntry(tx, caption, Pending, autoRemove, removeDelay,
            ExplorerUrl(Registry, tx.hash, tx.chainId), ShortenHash(tx.hash), false)
  }

  /** The settled part of a watch whose entry is still present. Status 1
      writes "success" and calls `onSuccess`; anything else writes "failed"
      and calls `onError`. A callback that throws inside the `try` lands in
      the `catch`, which writes "failed" again and calls `onError` with the
      exception; an `onError` that throws there ends the watch before the
      removal is scheduled. */
  function Settled(outcome: WaitOutcome, hooks: Hooks, autoRemove: bool): (s: Settlement)
    ensures |s.statuses| == |s.calls| && 1 <= |s.calls| <= 2
    ensures s.statuses[0] == Decide(outcome)
    ensures s.calls[0] == (if Decide(outcome) == Success then OnSuccess else OnError)
    ensures |s.calls| == 2 <==>
              outcome.Receipt? && (if outcome.status == 1 then hooks.successThrows else hooks.errorThrows)
    ensures |s.calls| == 2 ==> s.calls[1] == OnError && s.statuses[1] == Failed
    ensures s.statuses[|s.statuses| - 1] == Success <==> Decide(outcome) == Success && !hooks.successThrows
    ensures s.removal <==>
              autoRemove && ((Decide(outcome) == Success && !hooks.successThrows) || !hooks.errorThrows)
  {
    match outcome
    case WaitRejected(_) =>
      Settlement([OnError], [Failed], autoRemove && !hooks.errorThrows)
    case Receipt(status) =>
      if status == 1 then
        if hooks.successThrows then
          Settlement([OnSuccess, OnError], [Success, Failed], autoRemove && !hooks.errorThrows)
        else
          Settlement([OnSuccess], [Success], autoRemove)
      else if hooks.errorThrows then
        Settlement([OnError, OnError], [Failed, Failed], false)
      else
        Settlement([OnError], [Failed], autoRemove)
  }

  /** The transaction table after `track`: unchanged for a known hash, and
      otherwise the old entries plus a new "pending" entry. */
  function Tracked(txs: map<string, TxEntry>, tx: TxHandle, caption: string, autoRemove: bool, removeDelay: int)
    : (r: map<string, TxEntry>)
    ensures tx.hash in r && r.Keys == txs.Keys + {tx.hash}
    ensures tx.hash in txs ==> r == txs
    ensures forall h :: h in txs ==> r[h] == txs[h]
    ensures tx.hash !in txs ==> r[tx.hash] == NewEntry(tx, caption, autoRemove, removeDelay)
  {
    if tx.hash in txs then txs else txs[tx.hash := NewEntry(tx, caption, autoRemove, removeDelay)]
  }

  /** Tracking is idempotent on the hash: a second `track` of the same hash,
      whatever its options, leaves the table as the first one left it, and
      the first one starts a "pending" entry. */
  lemma TrackIdempotent(txs: map<string, TxEntry>, tx: TxHandle, tx2: TxHandle,
                        caption: string, caption2: string, auto: bool, auto2: bool, delay: int, delay2: int)
    requires tx2.hash == tx.hash
    ensures var once := Tracked(txs, tx, caption, auto, delay);
            Tracked(once, tx2, caption2, auto2, delay2) == once
            && (tx.hash !in txs ==> once[tx.hash].status == Pending)
  {
  }

  class NotificationCenter {
    var notifications: map<nat, Notice>
    var transactions: map<string, TxEntry>
    var idCounter: nat
    /** The watches that are still waiting on `wait()`. */
    ghost var watching: multiset<Watch>

    ghost predicate Valid()
      reads this
    {
      forall id :: id in notifications ==> 1 <= id <= idCounter
    }

    constructor ()
      ensures Valid()
      ensures notifications == map[] && transactions == map[] && idCounter == 0
      ensures watching == multiset{}
    {
      notifications := map[];
      transactions := map[];
      idCounter := 0;
      watching := multiset{};
    }

    /** `show`: the next id, registered; an auto-hide is scheduled when the
        duration is positive. */
    method Show(message: string, kind: string, duration: int) returns (id: nat, scheduleHide: bool)
      requires Valid()
      modifies this`notifications, this`idCounter
      ensures Valid()
      ensures id == old(idCounter) + 1 && idCounter == id
      ensures id !in old(notifications)
      ensures notifications == old(notifications)[id := Notice(message, kind, duration, false)]
      ensures scheduleHide <==> duration > 0
    {
      idCounter := idCounter + 1;
      id := idCounter;
      notifications := notifications[id := Notice(message, kind, duration, false)];
      scheduleHide := duration > 0;
    }

    /** `hide`: start the fade of a shown notification; unknown ids are ignored. */
    method Hide(id: nat) returns (fading: bool)
      requires Valid()
      modifies this`notifications
      ensures Valid()
      ensures fading <==> id in old(notifications)
      ensures fading ==> notifications == old(notifications)[id := old(notifications)[id].(hiding := true)]
      ensures !fading ==> notifications == old(notifications)
    {
      fading := id in notifications;
      if fading {
        notifications := notifications[id := notifications[id].(hiding := true)];
      }
    }

    /** The delayed end of `hide`: the entry is deleted. */
    method FinishHide(id: nat)
      requires Valid()
      modifies this`notifications
      ensures Valid()
      ensures notifications == old(notifications) - {id}
    {
      notifications := notifications - {id};
    }

    /** `track`: the id is the hash; a known hash changes nothing and starts
        no second watch. A new hash gets a "pending" entry and a watch, which
        calls `onPending` at once; if that throws, the watch fails the entry
        in its `catch` without waiting, and otherwise it waits. */
    method Track(tx: TxHandle, caption: string, autoRemove: bool, removeDelay: int, hooks: Hooks)
      returns (id: string, watchStarted: bool, calls: seq<Callback>, removalScheduled: bool)
      modifies this`transactions, this`watching
      ensures id == tx.hash
      ensures watchStarted <==> tx.hash !in old(transactions)
      ensures !watchStarted ==>
                transactions == old(transactions) && watching == old(watching)
                && calls == [] && !removalScheduled
      ensures watchStarted && !hooks.pendingThrows ==>
                && transactions == Tracked(old(transactions), tx, caption, autoRemove, removeDelay)
                && transactions[id].status == Pending
                && watching == old(watching) + multiset{Watch(id, hooks, autoRemove, removeDelay)}
                && calls == [OnPending] && !removalScheduled
      ensures watchStarted && hooks.pendingThrows ==>
                && transactions == old(transactions)[id := NewEntry(tx, caption, autoRemove, removeDelay).(status := Failed)]
                && watching == old(watching)
                && calls == [OnPending, OnError]
                && removalScheduled == (autoRemove && !hooks.errorThrows)
    {
      id := tx.hash;
      watchStarted := id !in transactions;
      calls := [];
      removalScheduled := false;
      if watchStarted {
        transactions := transactions[id := NewEntry(tx, caption, autoRemove, removeDelay)];
        calls := [OnPending];
        if hooks.pendingThrows {
          UpdateTransactionStatus(id, Failed);
          calls := calls + [OnError];
          removalScheduled := autoRemove && !hooks.errorThrows;
        } else {
          watching := watching + multiset{Watch(id, hooks, autoRemove, removeDelay)};
        }
      }
    }

    /** `updateTransactionStatus`: only an existing entry is touched. */
    method UpdateTransactionStatus(id: string, status: TxStatus)
      modifies this`transactions
      ensures id in old(transactions) ==>
                transactions == old(transactions)[id := old(transactions)[id].(status := status)]
      ensures id !in old(transactions) ==> transactions == old(transactions)
    {
      if id in transactions {
        transactions := transactions[id := transactions[id].(status := status)];
      }
    }

    /** The part of `watchTransaction` after `wait()` settles. Each watch
        settles once and is then gone. An entry removed in the meantime gets
        no status change and no callback; otherwise the statuses of
        `Settled` are written in turn, so the last one stays. */
    method Settle(w: Watch, outcome: WaitOutcome) returns (calls: seq<Callback>, removalScheduled: bool)
      requires w in watching
      modifies this`transactions, this`watching
      ensures watching == old(watching) - multiset{w}
      ensures w.id !in old(transactions) ==>
                transactions == old(transactions) && calls == [] && !removalScheduled
      ensures w.id in old(transactions) ==>
                var s := Settled(outcome, w.hooks, w.autoRemove);
                && transactions == old(transactions)[w.id := old(transactions)[w.id].(status := s.statuses[|s.statuses| - 1])]
                && calls == s.calls
                && removalScheduled == s.removal
    {
      watching := watching - multiset{w};
      if w.id !in transactions {
        return [], false;
      }
      var s := Settled(outcome, w.hooks, w.autoRemove);
      UpdateTransactionStatus(w.id, s.statuses[0]);
      if |s.statuses| == 2 {
        UpdateTransactionStatus(w.id, s.statuses[1]);
      }
      calls := s.calls;
      removalScheduled := s.removal;
    }

    /** `removeTransaction`: start the fade of a tracked transaction. */
    method RemoveTransaction(id: string) returns (fading: bool)
      modifies this`transactions
      ensures fading <==> id in old(transactions)
      ensures fading ==> transactions == old(transactions)[id := old(transactions)[id].(hiding := true)]
      ensures !fading ==> transactions == old(transactions)
    {
      fading := id in transactions;
      if fading {
        transactions := transactions[id := transactions[id].(hiding := true)];
      }
    }

    /** The delayed end of `removeTransaction`: the entry is deleted. */
    method CompleteRemoval(id: string)
      modifies this`transactions
      ensures transactions == old(transactions) - {id}
    {
      transactions := transactions - {id};
    }

    /** `clearTransactions`: every tracked transaction starts fading. */
    method ClearTransactions()
      modifies this`transactions
      ensures transactions.Keys == old(transactions).Keys
      ensures forall h :: h in transactions ==> transactions[h] == old(transactions)[h].(hiding := true)
    {
      transactions := map h | h in transactions :: transactions[h].(hiding := true);
    }
  }
}
