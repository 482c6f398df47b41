/**
 * The test runner's six scenarios, and the console demo's four purchases,
 * restated as client code whose assertions the verifier checks from the
 * contracts alone. Amounts are in kopecks: 30.0 is 3000.
 */
module Scenarios {
  import opened Wrappers
  import opened Inventory
  import opened Rejections
  import opened Transactions
  import opened VendingMachines
  import opened Controllers

  /** The fixture: a reset machine stocked with Coke (25.0, five left) and Snickers (18.0, none left). */
  method SetUp() returns (m: VendingMachine)
    ensures fresh(m)
    ensures m.Snapshot() == Machine(0, [Slot(Product("Coke", 2500), 5), Slot(Product("Snickers", 1800), 0)], Idle, None, [])
  {
    m := new VendingMachine();
    m.Reset();
    m.AddSlot(Slot(Product("Coke", 2500), 5));
    m.AddSlot(Slot(Product("Snickers", 1800), 0));
  }

  method SuccessfulPurchase()
  {
    var m := SetUp();
    m.InsertMoney(3000);
    var r := m.SelectSlot(1);
    assert r == Ok(());
    assert m.currentBalance == 500;
    assert m.slots[0].quantity == 4;
    assert m.currentState == HasMoney;
  }

  method PurchaseWithExactAmount()
  {
    var m := SetUp();
    m.InsertMoney(2500);
    var r := m.SelectSlot(1);
    assert r == Ok(());
    assert m.currentBalance == 0;
    assert m.currentState == Idle;
  }

  method InsufficientFundsScenario()
  {
    var m := SetUp();
    m.InsertMoney(1000);
    var r := m.SelectSlot(1);
    assert r == Err(InsufficientFunds);
    assert m.currentBalance == 1000;
    assert m.slots[0].quantity == 5;
  }

  method OutOfStockScenario()
  {
    var m := SetUp();
    m.InsertMoney(5000);
    var r := m.SelectSlot(2);
    assert r == Err(OutOfStock);
    assert m.currentBalance == 5000;
  }

  method InvalidSlotScenario()
  {
    var m := SetUp();
    m.InsertMoney(5000);
    var r := m.SelectSlot(99);
    assert r == Err(InvalidSlot);
    r := m.SelectSlot(0);
    assert r == Err(InvalidSlot);
    assert m.currentBalance == 5000;
  }

  method ReturnChangeScenario()
  {
    var m := SetUp();
    m.InsertMoney(5000);
    var change := m.RequestChange();
    assert change == 5000;
    assert m.currentBalance == 0;
    change := m.RequestChange();
    assert change == 0;
  }

  /**
   * The console demo on a freshly stocked machine: Coke and Lays are bought,
   * the single Snickers is bought once, and the second attempt is rejected
   * as out of stock.
   */
  method StarterDemo(display: nat)
  {
    var m := new VendingMachine();
    var controller := new VendingMachineController(m);
    controller.InitializeVendingMachine(display);
    var o := controller.PurchaseProductWithPayment(1, true);
    assert o == Purchased;
    o := controller.PurchaseProductWithPayment(4, true);
    assert o == Purchased;
    o := controller.PurchaseProductWithPayment(3, true);
    assert o == Purchased;
    o := controller.PurchaseProductWithPayment(3, true);
    assert o == Rejected(OutOfStock);
    assert m.slots[0].quantity == 9 && m.slots[2].quantity == 0 && m.slots[3].quantity == 7;
    assert m.currentBalance == 0 && m.currentState == Idle;
  }
}
