/**
 * The controller layer on top of the machine: running a command with its
 * rejection swallowed, the initial stocking of the machine, and the composite
 * purchase that checks the slot, asks the payment authoriser, credits the
 * price, selects the slot and always asks for change at the end. The payment
 * authoriser's answer is the `paid` parameter.
 */
module Controllers {
  import opened Wrappers
  import opened Inventory
  import opened Rejections
  import opened Notifications
  import opened Transactions
  import opened Invariants
  import opened VendingMachines

  /**
   * What a purchase attempt reports to the user. Purchased means the selection
   * raised no error; from a machine at rest that is always a real sale (see
   * Purchase). A machine caught in Sold ignores the selection without an
   * error, so Purchased is reported there although nothing was sold; no public
   * call leaves a machine in Sold.
   */
  datatype PurchaseOutcome = Rejected(reason: Rejection) | PaymentDeclined | Purchased

  /** The two deferred actions the console hands to the controller. */
  datatype Command = InsertMoneyCommand(amount: int) | SelectProductCommand(slotNumber: int)

  /** Running a command: its effect on the machine, with any rejection caught and dropped. */
  function Execute(m: Machine, c: Command): (s: Step<()>)
    ensures c.InsertMoneyCommand? ==> s.next == InsertMoney(m, c.amount).next && s.events == InsertMoney(m, c.amount).events
    ensures c.SelectProductCommand? ==> s.next == SelectSlot(m, c.slotNumber).next && s.events == SelectSlot(m, c.slotNumber).events
    ensures c.SelectProductCommand? && SelectSlot(m, c.slotNumber).out.Err? ==> s.next == m && s.events == []
    ensures Inv(m) ==> Inv(s.next)
  {
    match c
    case InsertMoneyCommand(amount) => InsertMoney(m, amount)
    case SelectProductCommand(n) =>
      var r := SelectSlot(m, n);
      Step((), r.next, r.events)
  }

  /** The four slots the machine is stocked with, prices in kopecks. */
  function StarterSlots(): seq<Slot>
  {
    [ Slot(Product("Coca-Cola", 2500), 10),
      Slot(Product("Pepsi", 2450), 5),
      Slot(Product("Snickers", 1800), 1),
      Slot(Product("Lays", 3250), 8) ]
  }

  /** The pre-check that comes before any payment: the slot exists and is not empty. */
  predicate InStock(m: Machine, n: int)
  {
    ValidSlot(m, n) && m.slots[n - 1].quantity > 0
  }

  /** The try block of the composite purchase, before the change is returned. */
  function Attempt(m: Machine, n: int, paid: bool): Step<PurchaseOutcome>
  {
    if n <= 0 || n > |m.slots| then Step(Rejected(InvalidSlot), m, [])
    else if m.slots[n - 1].quantity <= 0 then Step(Rejected(OutOfStock), m, [])
    else if !paid then Step(PaymentDeclined, m, [])
    else
      var price := m.slots[n - 1].product.price;
      var credited := InsertMoney(m, price);
      var selected := SelectSlot(credited.next, n);
      Step(if selected.out.Err? then Rejected(selected.out.error) else Purchased,
           selected.next, credited.events + selected.events)
  }

  /**
   * The composite purchase of slot n: the attempt, then a change request that
   * runs whatever the attempt did.
   */
  function Purchase(m: Machine, n: int, paid: bool): (s: Step<PurchaseOutcome>)
    // the pre-check decides before the payment is asked for
    ensures !ValidSlot(m, n) ==> s.out == Rejected(InvalidSlot)
    ensures ValidSlot(m, n) && m.slots[n - 1].quantity == 0 ==> s.out == Rejected(OutOfStock)
    ensures s.out == PaymentDeclined <==> InStock(m, n) && !paid
    // without a payment nothing is credited or bought: only the change request acts
    ensures !(InStock(m, n) && paid) ==>
      s.next.slots == m.slots && s.events == RequestChange(m).events && s.next == RequestChange(m).next
    // from a machine at rest it always ends Idle and empty
    ensures AtRest(m) ==> s.next.phase == Idle && s.next.balance == 0
    // a paid purchase from a machine at rest succeeds and takes exactly one unit out of slot n
    ensures AtRest(m) && InStock(m, n) && paid ==>
      var k, slot := n - 1, m.slots[n - 1];
      && s.out == Purchased
      && |s.next.slots| == |m.slots|
      && s.next.slots[k] == Slot(slot.product, slot.quantity - 1)
      && (forall j :: 0 <= j < |m.slots| && j != k ==> s.next.slots[j] == m.slots[j])
      && s.next.pending == Some(slot.product)
      && s.next.observers == m.observers
    // ... crediting exactly the price, dispensing, and handing back the earlier balance
    ensures AtRest(m) && InStock(m, n) && paid && m.slots[n - 1].product.price > 0 ==>
      var slot := m.slots[n - 1];
      s.events == [ BalanceUpdated(m.balance + slot.product.price),
                    Dispensed(slot.product.name, slot.quantity - 1, m.balance) ]
                  + (if m.balance > 0 then [ChangeReturned(m.balance)] else [])
  {
    var t := Attempt(m, n, paid);
    var c := RequestChange(t.next);
    Step(t.out, c.next, t.events + c.events)
  }

  class VendingMachineController {
    const machine: VendingMachine

    constructor (machine: VendingMachine)
      ensures this.machine == machine
    {
      this.machine := machine;
    }

    /** Runs a command; a rejection is reported and goes no further. */
    method ExecuteCommand(command: Command)
      modifies machine
      ensures var s := Execute(old(machine.Snapshot()), command);
        machine.Snapshot() == s.next && machine.log == old(machine.log) + Broadcast(old(machine.observers), s.events)
    {
      match command
      case InsertMoneyCommand(amount) =>
        machine.InsertMoney(amount);
      case SelectProductCommand(n) =>
        var _ := machine.SelectSlot(n);
    }

    /** Stocks the four starter slots, in order, and registers the display listener. */
    method InitializeVendingMachine(display: ObserverId)
      modifies machine
      ensures machine.Snapshot() == old(machine.Snapshot()).(
        slots := old(machine.slots) + StarterSlots(),
        observers := old(machine.observers) + [display])
      ensures machine.log == old(machine.log)
    {
      machine.AddSlot(Slot(Product("Coca-Cola", 2500), 10));
      machine.AddSlot(Slot(Product("Pepsi", 2450), 5));
      machine.AddSlot(Slot(Product("Snickers", 1800), 1));
      machine.AddSlot(Slot(Product("Lays", 3250), 8));
      machine.AddObserver(display);
    }

    /** The composite purchase of slot slotNumber, with the authoriser's answer given as paid. */
    method PurchaseProductWithPayment(slotNumber: int, paid: bool) returns (outcome: PurchaseOutcome)
      modifies machine
      ensures var s := Purchase(old(machine.Snapshot()), slotNumber, paid);
        outcome == s.out && machine.Snapshot() == s.next
        && machine.log == old(machine.log) + Broadcast(old(machine.observers), s.events)
    {
      ghost var t := Attempt(machine.Snapshot(), slotNumber, paid);
      outcome := TryPurchase(slotNumber, paid);
      // finally: the change goes back whatever happened above
      var _ := machine.RequestChange();
      LogThenLog(old(machine.log), old(machine.observers), t.events, RequestChange(t.next).events);
    }

    /** The try block: pre-check, payment, credit, selection; a rejection is caught here. */
    method TryPurchase(slotNumber: int, paid: bool) returns (outcome: PurchaseOutcome)
      modifies machine
      ensures var s := Attempt(old(machine.Snapshot()), slotNumber, paid);
        outcome == s.out && machine.Snapshot() == s.next
        && machine.log == old(machine.log) + Broadcast(old(machine.observers), s.events)
    {
      if slotNumber <= 0 || slotNumber > |machine.slots| {
        return Rejected(InvalidSlot);
      }
      if machine.slots[slotNumber - 1].quantity <= 0 {
        return Rejected(OutOfStock);
      }
      var price := machine.slots[slotNumber - 1].product.price;
      if !paid {
        return PaymentDeclined;
      }
      ghost var credited := InsertMoney(machine.Snapshot(), price);
      machine.InsertMoney(price);
      var r := machine.SelectSlot(slotNumber);
      LogThenLog(old(machine.log), old(machine.observers), credited.events, SelectSlot(credited.next, slotNumber).events);
      outcome := if r.Err? then Rejected(r.error) else Purchased;
    }
  }
}
