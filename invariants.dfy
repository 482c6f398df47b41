/**
 * What holds of every state a client can reach through the machine's public
 * surface: the money is never negative, an idle machine holds none, and the
 * dispensing phase is never visible once a call has returned.
 */
module Invariants {
  import opened Inventory
  import opened Notifications
  import opened Transactions

  /** One call on the machine's public surface. */
  datatype Action =
    | CallInsertMoney(amount: int)
    | CallSelectSlot(slotNumber: int)
    | CallDispenseProduct
    | CallRequestChange
    | CallAddSlot(slot: Slot)
    | CallAddObserver(observer: ObserverId)
    | CallRemoveObserver(observer: ObserverId)
    | CallReset

  /** The machine after one call. */
  function Apply(m: Machine, a: Action): Machine
  {
    match a
    case CallInsertMoney(amount) => InsertMoney(m, amount).next
    case CallSelectSlot(n) => SelectSlot(m, n).next
    case CallDispenseProduct => DispenseProduct(m).next
    case CallRequestChange => RequestChange(m).next
    case CallAddSlot(slot) => AddSlot(m, slot)
    case CallAddObserver(o) => AddObserver(m, o)
    case CallRemoveObserver(o) => RemoveObserver(m, o)
    case CallReset => Reset(m)
  }

  /** The machine after a sequence of calls, first to last. */
  function Run(m: Machine, calls: seq<Action>): Machine
    decreases |calls|
  {
    if calls == [] then m else Run(Apply(m, calls[0]), calls[1..])
  }

  lemma ApplyKeepsRest(m: Machine, a: Action)
    requires AtRest(m)
    ensures AtRest(Apply(m, a))
  {
  }

  lemma {:induction false} RunKeepsRest(m: Machine, calls: seq<Action>)
    requires AtRest(m)
    ensures AtRest(Run(m, calls))
    decreases |calls|
  {
    if calls != [] {
      ApplyKeepsRest(m, calls[0]);
      RunKeepsRest(Apply(m, calls[0]), calls[1..]);
    }
  }

  /**
   * Every state reachable from a new machine has a non-negative balance, a
   * zero balance whenever it is Idle, and is not in the dispensing phase.
   */
  lemma Reachable(calls: seq<Action>)
    ensures var m := Run(Initial(), calls);
      m.balance >= 0 && (m.phase == Idle ==> m.balance == 0) && m.phase != Sold
  {
    RunKeepsRest(Initial(), calls);
  }

  /** Asking twice for change hands back the whole balance once, then nothing. */
  lemma RequestChangeTwice(m: Machine)
    requires AtRest(m)
    ensures var first := RequestChange(m); var second := RequestChange(first.next);
      first.out == m.balance && second.out == 0 && first.next.balance == 0 && second.next.balance == 0
  {
  }

  /** A rejected selection leaves balance, stock and phase exactly as they were, and notifies nobody. */
  lemma RejectedSelectionChangesNothing(m: Machine, n: int)
    requires SelectSlot(m, n).out.Err?
    ensures SelectSlot(m, n).next == m && SelectSlot(m, n).events == []
    ensures m.phase == HasMoney
  {
  }
}
