/**
 * The transaction engine as a function of the machine's state: one function
 * per internal primitive (crediting, settling a purchase, returning change)
 * and one per verb, each a single `match` over the phase, so that together
 * they form the transition table of the three phase objects. A step yields
 * the verb's output, the machine afterwards and the events it notified, in
 * order. The imperative class in VendingMachines is proved to follow them.
 */
module Transactions {
  import opened Wrappers
  import opened Inventory
  import opened Rejections
  import opened Notifications

  /** The phase that decides how each verb behaves; Sold is the dispensing phase. */
  datatype Phase = Idle | HasMoney | Sold

  /** Everything the machine owns: balance, slots, phase, pending product, listeners. */
  datatype Machine = Machine(
    balance: int,
    slots: seq<Slot>,
    phase: Phase,
    pending: Option<Product>,
    observers: seq<ObserverId>)

  /** The result of one operation: what it returns, the new machine, the events it emitted. */
  datatype Step<+T> = Step(out: T, next: Machine, events: seq<Event>)

  /** The machine's invariant: money is never negative and an idle machine holds none. */
  predicate Inv(m: Machine)
  {
    m.balance >= 0 && (m.phase == Idle ==> m.balance == 0)
  }

  /** A machine at rest, as every public call leaves it: the invariant holds and nothing is being dispensed. */
  predicate AtRest(m: Machine)
  {
    Inv(m) && m.phase != Sold
  }

  /** A freshly constructed machine. */
  function Initial(): Machine
  {
    Machine(0, [], Idle, None, [])
  }

  /** The slot a 1-based slot number names, when there is one. */
  predicate ValidSlot(m: Machine, n: int)
  {
    0 < n <= |m.slots|
  }

  // ---------------------------------------------------------------------
  // Internal primitives
  // ---------------------------------------------------------------------

  /** Crediting money: a positive amount is added and announced, anything else is ignored. */
  function Credit(m: Machine, amount: int): (s: Step<()>)
    ensures s.next == m.(balance := s.next.balance)
    ensures s.next.balance == m.balance + (if amount > 0 then amount else 0)
    ensures |s.events| == (if amount > 0 then 1 else 0)
    ensures forall i :: 0 <= i < |s.events| ==> s.events[i] == BalanceUpdated(s.next.balance)
  {
    if amount > 0 then
      var b := m.balance + amount;
      Step((), m.(balance := b), [BalanceUpdated(b)])
    else
      Step((), m, [])
  }

  /**
   * Settling a purchase from slot n: slot validity, then stock, then funds are
   * checked before anything changes; only when all three pass is the price
   * deducted and one unit taken out of the slot.
   */
  function Settle(m: Machine, n: int): (s: Step<Result<Product>>)
    // which rejection a caller sees, in checking order
    ensures s.out == Err(InvalidSlot) <==> !ValidSlot(m, n)
    ensures s.out == Err(OutOfStock) <==> ValidSlot(m, n) && m.slots[n - 1].quantity == 0
    ensures s.out == Err(InsufficientFunds) <==>
      ValidSlot(m, n) && m.slots[n - 1].quantity > 0 && m.balance < m.slots[n - 1].product.price
    // a rejection changes nothing and announces nothing
    ensures s.out.Err? ==> s.next == m && s.events == []
    // a success moves the price out of the balance and one unit out of the slot
    ensures s.out.Ok? ==>
      && ValidSlot(m, n)
      && var k, slot := n - 1, m.slots[n - 1];
      && s.out.value == slot.product
      && s.next.balance == m.balance - slot.product.price
      && |s.next.slots| == |m.slots|
      && s.next.slots[k].product == slot.product
      && s.next.slots[k].quantity + 1 == slot.quantity
      && (forall j :: 0 <= j < |m.slots| && j != k ==> s.next.slots[j] == m.slots[j])
      && s.next == m.(balance := s.next.balance, slots := s.next.slots)
      && s.events == [Dispensed(slot.product.name, s.next.slots[k].quantity, s.next.balance)]
  {
    if n <= 0 || n > |m.slots| then Step(Err(InvalidSlot), m, [])
    else
      var slot := m.slots[n - 1];
      if slot.quantity <= 0 then Step(Err(OutOfStock), m, [])
      else
        var product := slot.product;
        if m.balance < product.price then Step(Err(InsufficientFunds), m, [])
        else
          var b := m.balance - product.price;
          var left := DecreaseQuantity(slot);
          Step(Ok(product), m.(balance := b, slots := m.slots[n - 1 := left]),
               [Dispensed(product.name, left.quantity, b)])
  }

  /** Returning change: the whole balance is handed back, announced only when positive. */
  function ReturnChange(m: Machine): (s: Step<int>)
    ensures s.out == m.balance
    ensures s.next.balance == 0 && s.next == m.(balance := 0)
    ensures s.events == [] <==> m.balance <= 0
    ensures s.events != [] ==> s.events == [ChangeReturned(s.out)]
  {
    var change := m.balance;
    Step(change, m.(balance := 0), if change > 0 then [ChangeReturned(change)] else [])
  }

  // ---------------------------------------------------------------------
  // The four verbs, dispatched on the phase
  // ---------------------------------------------------------------------

  /**
   * Idle credits and moves to HasMoney, even when the amount was ignored;
   * HasMoney credits and stays; Sold ignores the money.
   */
  function InsertMoney(m: Machine, amount: int): (s: Step<()>)
    ensures m.phase == Sold ==> s.next == m && s.events == []
    ensures m.phase != Sold ==>
      && s.next.phase == HasMoney
      && s.next.(phase := m.phase) == Credit(m, amount).next
      && s.events == Credit(m, amount).events
    ensures Inv(m) ==> Inv(s.next)
  {
    match m.phase
    case Idle =>
      var c := Credit(m, amount);
      Step((), c.next.(phase := HasMoney), c.events)
    case HasMoney => Credit(m, amount)
    case Sold => Step((), m, [])
  }

  /**
   * Leaving the dispensing phase: back to HasMoney while money is left, to
   * Idle otherwise. The pending product is left as it is. No other phase
   * reacts.
   */
  function DispenseProduct(m: Machine): (s: Step<()>)
    ensures s.events == []
    ensures m.phase != Sold ==> s.next == m
    ensures m.phase == Sold ==>
      s.next == m.(phase := s.next.phase) && (s.next.phase == HasMoney <==> m.balance > 0) && s.next.phase != Sold
    ensures m.balance >= 0 ==> Inv(s.next) || (m.phase != Sold && s.next == m)
  {
    match m.phase
    case Sold => Step((), m.(phase := if m.balance > 0 then HasMoney else Idle), [])
    case _ => Step((), m, [])
  }

  /**
   * Selecting slot n. Only HasMoney acts: it settles the purchase, and a
   * rejection propagates with nothing changed; on success the product becomes
   * the pending one, the machine enters Sold and dispenses at once, so the
   * call returns in HasMoney (money left) or Idle (none left). Idle and Sold
   * report a message and raise nothing.
   */
  function SelectSlot(m: Machine, n: int): (s: Step<Result<()>>)
    ensures m.phase != HasMoney ==> s.out == Ok(()) && s.next == m && s.events == []
    ensures m.phase == HasMoney && Settle(m, n).out.Err? ==>
      s.out == Err(Settle(m, n).out.error) && s.next == m && s.events == []
    ensures m.phase == HasMoney && Settle(m, n).out.Ok? ==>
      var t := Settle(m, n);
      && s.out == Ok(())
      && s.next.pending == Some(t.out.value)
      && s.next.balance == t.next.balance
      && s.next.slots == t.next.slots
      && s.next.observers == m.observers
      && (s.next.phase == HasMoney <==> s.next.balance > 0)
      && s.next.phase != Sold
      && s.events == t.events
    ensures Inv(m) ==> Inv(s.next)
  {
    match m.phase
    case HasMoney =>
      var t := Settle(m, n);
      if t.out.Err? then Step(Err(t.out.error), t.next, t.events)
      else
        var d := DispenseProduct(t.next.(pending := Some(t.out.value), phase := Sold));
        Step(Ok(()), d.next, t.events + d.events)
    case _ => Step(Ok(()), m, [])
  }

  /**
   * Asking for change. HasMoney returns the whole balance, empties it and goes
   * Idle; Idle and Sold return 0 and leave the balance alone, even a positive
   * one in Sold.
   */
  function RequestChange(m: Machine): (s: Step<int>)
    ensures m.phase != HasMoney ==> s.out == 0 && s.next == m && s.events == []
    ensures m.phase == HasMoney ==>
      && s.out == m.balance
      && s.next == m.(balance := 0, phase := Idle)
      && s.events == ReturnChange(m).events
    ensures Inv(m) && m.phase != Sold ==> s.out == m.balance && s.next.balance == 0 && s.next.phase == Idle
    ensures Inv(m) ==> Inv(s.next)
  {
    match m.phase
    case HasMoney =>
      var c := ReturnChange(m);
      Step(c.out, c.next.(phase := Idle), c.events)
    case _ => Step(0, m, [])
  }

  // ---------------------------------------------------------------------
  // Configuration
  // ---------------------------------------------------------------------

  /** Adding a slot appends it after the existing ones. */
  function AddSlot(m: Machine, slot: Slot): (r: Machine)
    ensures r.slots == m.slots + [slot]
    ensures r == m.(slots := r.slots)
  {
    m.(slots := m.slots + [slot])
  }

  /** Registering a listener appends it; duplicates are kept. */
  function AddObserver(m: Machine, o: ObserverId): (r: Machine)
    ensures |r.observers| == |m.observers| + 1 && r.observers[|m.observers|] == o
    ensures r.observers[..|m.observers|] == m.observers
    ensures r == m.(observers := r.observers)
  {
    m.(observers := m.observers + [o])
  }

  /** Unregistering a listener drops its first registration only. */
  function RemoveObserver(m: Machine, o: ObserverId): (r: Machine)
    ensures o !in m.observers ==> r == m
    ensures o in m.observers ==>
      var k := FirstIndex(m.observers, o);
      r.observers == m.observers[..k] + m.observers[k + 1..] && r == m.(observers := r.observers)
  {
    m.(observers := RemoveFirst(m.observers, o))
  }

  /** Resetting empties the slots and the balance and goes Idle; listeners and the pending product stay. */
  function Reset(m: Machine): (r: Machine)
    ensures r.slots == [] && r.balance == 0 && r.phase == Idle
    ensures r.observers == m.observers && r.pending == m.pending
    ensures Inv(r)
  {
    m.(slots := [], balance := 0, phase := Idle)
  }

  // ---------------------------------------------------------------------
  // The transition table, one row per phase
  // ---------------------------------------------------------------------

  /** Idle: money is credited and the machine moves to HasMoney; the other three verbs do nothing. */
  lemma IdleRow(m: Machine, amount: int, n: int)
    requires m.phase == Idle
    ensures InsertMoney(m, amount).next.phase == HasMoney
    ensures InsertMoney(m, amount).next.balance == m.balance + (if amount > 0 then amount else 0)
    ensures SelectSlot(m, n) == Step(Ok(()), m, [])
    ensures DispenseProduct(m) == Step((), m, [])
    ensures RequestChange(m) == Step(0, m, [])
  {
  }

  /**
   * HasMoney: money is credited without a phase change; a selection settles
   * and dispenses, or propagates its rejection; dispensing alone does nothing;
   * change empties the balance and goes Idle.
   */
  lemma HasMoneyRow(m: Machine, amount: int, n: int)
    requires m.phase == HasMoney
    ensures InsertMoney(m, amount) == Credit(m, amount)
    ensures Settle(m, n).out.Err? ==> SelectSlot(m, n) == Step(Err(Settle(m, n).out.error), m, [])
    ensures Settle(m, n).out.Ok? ==>
      SelectSlot(m, n).next.pending == Some(Settle(m, n).out.value) && SelectSlot(m, n).next.phase != Sold
    ensures DispenseProduct(m) == Step((), m, [])
    ensures RequestChange(m).out == m.balance && RequestChange(m).next == m.(balance := 0, phase := Idle)
  {
  }

  /**
   * Sold: inserting money, selecting and asking for change are refused with a
   * message (change returns 0 even while money is held); dispensing leaves
   * the phase for HasMoney or Idle depending on the balance.
   */
  lemma SoldRow(m: Machine, amount: int, n: int)
    requires m.phase == Sold
    ensures InsertMoney(m, amount) == Step((), m, [])
    ensures SelectSlot(m, n) == Step(Ok(()), m, [])
    ensures RequestChange(m) == Step(0, m, [])
    ensures DispenseProduct(m).next == m.(phase := if m.balance > 0 then HasMoney else Idle)
  {
  }
}
