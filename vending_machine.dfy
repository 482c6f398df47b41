/**
 * The vending machine aggregate. Its fields are updated in place. The four
 * public verbs dispatch on the current phase, and every change they make to
 * balance and stock goes through three primitives (DoInsertMoney,
 * DoSelectProduct, DoReturnChange), each of which notifies the listeners.
 * The configuration calls AddSlot and Reset change the slots and the balance
 * directly and notify nobody. Notifications are recorded in the ghost `log`
 * as one delivery per listener per event. Each method is proved to do what
 * the matching function of Transactions (for NotifyObservers, Fanout) says.
 */
module VendingMachines {
  import opened Wrappers
  import opened Inventory
  import opened Rejections
  import opened Notifications
  import opened Transactions

  class VendingMachine {
    var slots: seq<Slot>
    var currentBalance: int
    var currentState: Phase
    var productToDispense: Option<Product>
    var observers: seq<ObserverId>
    /** Every notification delivered so far, in delivery order. */
    ghost var log: seq<Delivery>

    /** The machine's state as a value. */
    function Snapshot(): Machine
      reads this
    {
      Machine(currentBalance, slots, currentState, productToDispense, observers)
    }

    /** The object invariant every public method keeps: money never negative, none when Idle, never left in Sold. */
    ghost predicate Valid()
      reads this
    {
      AtRest(Snapshot())
    }

    /** A new machine: balance 0, no slots, Idle, nothing to dispense, no listeners. */
    constructor ()
      ensures Snapshot() == Initial() && Valid()
      ensures slots == [] && currentBalance == 0 && currentState == Idle
      ensures productToDispense == None && observers == [] && log == []
    {
      slots := [];
      currentBalance := 0;
      currentState := Idle;
      productToDispense := None;
      observers := [];
      log := [];
    }

    // --- verbs, delegated to the current phase ---

    method InsertMoney(amount: int)
      modifies this
      ensures var s := Transactions.InsertMoney(old(Snapshot()), amount);
        Snapshot() == s.next && log == old(log) + Broadcast(old(observers), s.events)
      ensures old(Valid()) ==> Valid()
    {
      match currentState
      case Idle =>
        DoInsertMoney(amount);
        currentState := HasMoney;
      case HasMoney =>
        DoInsertMoney(amount);
      case Sold =>
        // busy dispensing: the money is not taken
    }

    method SelectSlot(slotNumber: int) returns (r: Result<()>)
      modifies this
      ensures var s := Transactions.SelectSlot(old(Snapshot()), slotNumber);
        r == s.out && Snapshot() == s.next && log == old(log) + Broadcast(old(observers), s.events)
      ensures old(Valid()) ==> Valid()
    {
      match currentState
      case Idle =>
        r := Ok(());
      case HasMoney =>
        var product := DoSelectProduct(slotNumber);
        if product.Err? {
          return Err(product.error);
        }
        productToDispense := Some(product.value);
        currentState := Sold;
        DispenseProduct();
        r := Ok(());
      case Sold =>
        r := Ok(());
    }

    method DispenseProduct()
      modifies this
      ensures Snapshot() == Transactions.DispenseProduct(old(Snapshot())).next
      ensures log == old(log)
      ensures old(Valid()) ==> Valid()
    {
      if currentState == Sold {
        if currentBalance > 0 {
          currentState := HasMoney;
        } else {
          currentState := Idle;
        }
      }
    }

    method RequestChange() returns (change: int)
      modifies this
      ensures var s := Transactions.RequestChange(old(Snapshot()));
        change == s.out && Snapshot() == s.next && log == old(log) + Broadcast(old(observers), s.events)
      ensures old(Valid()) ==> Valid()
    {
      match currentState
      case HasMoney =>
        change := DoReturnChange();
        currentState := Idle;
      case _ =>
        change := 0;
    }

    // --- primitives used by the phases ---

    method DoInsertMoney(amount: int)
      modifies this`currentBalance, this`log
      ensures var s := Credit(old(Snapshot()), amount);
        Snapshot() == s.next && log == old(log) + Broadcast(observers, s.events)
    {
      if amount > 0 {
        currentBalance := currentBalance + amount;
        NotifyObservers(BalanceUpdated(currentBalance));
      }
    }

    method DoSelectProduct(slotNumber: int) returns (r: Result<Product>)
      modifies this`currentBalance, this`slots, this`log
      ensures var s := Settle(old(Snapshot()), slotNumber);
        r == s.out && Snapshot() == s.next && log == old(log) + Broadcast(observers, s.events)
    {
      if slotNumber <= 0 || slotNumber > |slots| {
        return Err(InvalidSlot);
      }
      var slot := slots[slotNumber - 1];
      if slot.quantity <= 0 {
        return Err(OutOfStock);
      }
      var product := slot.product;
      if currentBalance < product.price {
        return Err(InsufficientFunds);
      }
      currentBalance := currentBalance - product.price;
      slots := slots[slotNumber - 1 := DecreaseQuantity(slot)];
      NotifyObservers(Dispensed(product.name, slots[slotNumber - 1].quantity, currentBalance));
      r := Ok(product);
    }

    method DoReturnChange() returns (change: int)
      modifies this`currentBalance, this`log
      ensures var s := ReturnChange(old(Snapshot()));
        change == s.out && Snapshot() == s.next && log == old(log) + Broadcast(observers, s.events)
    {
      change := currentBalance;
      currentBalance := 0;
      if change > 0 {
        NotifyObservers(ChangeReturned(change));
      }
    }

    // --- listeners ---

    method AddObserver(o: ObserverId)
      modifies this`observers
      ensures Snapshot() == Transactions.AddObserver(old(Snapshot()), o)
      ensures old(Valid()) ==> Valid()
    {
      observers := observers + [o];
    }

    method RemoveObserver(o: ObserverId)
      modifies this`observers
      ensures Snapshot() == Transactions.RemoveObserver(old(Snapshot()), o)
      ensures old(Valid()) ==> Valid()
    {
      observers := RemoveFirst(observers, o);
    }

    /** Hands one event to every listener, in registration order. */
    method NotifyObservers(e: Event)
      modifies this`log
      ensures log == old(log) + Fanout(observers, e)
    {
      var i := 0;
      while i < |observers|
        invariant 0 <= i <= |observers|
        invariant log == old(log) + Fanout(observers[..i], e)
      {
        FanoutSnoc(observers[..i], observers[i], e);
        assert observers[..i + 1] == observers[..i] + [observers[i]];
        log := log + [Delivery(observers[i], e)];
        i := i + 1;
      }
      assert observers[..i] == observers;
    }

    // --- configuration ---

    method AddSlot(slot: Slot)
      modifies this`slots
      ensures Snapshot() == Transactions.AddSlot(old(Snapshot()), slot)
      ensures old(Valid()) ==> Valid()
    {
      slots := slots + [slot];
    }

    method Reset()
      modifies this`slots, this`currentBalance, this`currentState
      ensures Snapshot() == Transactions.Reset(old(Snapshot()))
      ensures Valid()
    {
      slots := [];
      currentBalance := 0;
      currentState := Idle;
    }
  }
}
