# Vending machine transaction engine in Dafny

This project models the transaction engine of a single-unit vending machine,
written in Java. The machine holds a balance, a list of slots (a product and
the units left) and a phase: `Idle`, `HasMoney` or `Sold`, where `Sold` is
the dispensing phase. Four verbs are delegated to the current phase: insert
money, select a slot, dispense and request change. Every change these verbs
make to the balance and the stock goes through three primitives:
- crediting money;
- settling a purchase, which checks slot validity, then stock, then funds;
- returning change.

Each successful change made by a primitive notifies every registered
listener, in order. The configuration calls are different: `addSlot` adds
stock and `reset` empties the slots and zeroes the balance directly, and
neither notifies anyone. A
controller on top runs commands and swallows their rejections. It also
stocks the machine and runs a composite purchase: pre-check, payment,
credit, selection, and a change request that always runs at the end.

Layout:
- `wrappers.dfy`, `inventory.dfy`, `rejections.dfy`: `Option`; `Product`
  and `Slot`; the three rejection kinds and `Result`.
- `notifications.dfy`: listener identities, events, the fan-out and
  first-match removal.
- `transactions.dfy`: the machine as a value (`Machine`) and the transition
  table as functions. There is one function per primitive and one per verb,
  each a single `match` on the phase. Each returns a `Step`: the output, the
  next machine and the events emitted.
- `vending_machine.dfy`: the `VendingMachine` class with mutable fields and
  a ghost delivery log. Every method except `NotifyObservers` is proved to
  do what the matching function in `Transactions` says. `NotifyObservers` is
  proved to match `Notifications.Fanout`. The object invariant `Valid()` is
  `AtRest` of the snapshot: balance ≥ 0, balance 0 when Idle, and not in
  Sold. Every public method keeps it.
- `invariants.dfy`: invariants over every sequence of public calls.
- `controller.dfy`: the controller, as functions and as a class over a
  machine.
- `scenarios.dfy`: the test runner's six scenarios and the console demo,
  written as client code.

Money is an `int` in kopecks (minor units), so 25.0 becomes 2500. The
tolerance used when comparing amounts becomes exact equality.

## Model

| member | source | states |
|---|---|---|
| `Inventory.DecreaseQuantity` | src/VendingMachine.java:90 | Taking a unit out keeps the product and lowers the quantity by exactly one. This is an assumption: the slot's own code is not part of this model. |
| `Notifications.Fanout` | src/VendingMachine.java:114-118 | One event reaches every registered listener exactly once, in list order: the i-th delivery goes to the i-th listener. |
| `Notifications.RemoveFirst` | src/VendingMachine.java:110-112 | Removal drops only the first entry equal to the listener and keeps the others in order. An unregistered listener leaves the list unchanged. |
| `Transactions.Credit` | src/VendingMachine.java:70-75 | A positive amount is added exactly and notified once, with the new balance. A non-positive amount changes nothing and notifies nobody. Only the balance can change. |
| `Transactions.Settle` | src/VendingMachine.java:77-93 | Errors come in the checking order: InvalidSlot exactly when the index is outside 1..number of slots; otherwise OutOfStock exactly when the quantity is 0; otherwise InsufficientFunds exactly when balance < price. A rejection changes nothing and notifies nobody. On success: the result is the slot's product, the balance drops by the price, that slot loses exactly one unit, every other slot stays the same, and one Dispensed event is emitted. |
| `Transactions.ReturnChange` | src/VendingMachine.java:95-102 | Returns the old balance and sets the balance to 0. A notification is sent exactly when the returned amount is positive. |
| `Transactions.InsertMoney` | src/IdleState.java:7-13 | Idle and HasMoney credit through the primitive and end in HasMoney, even when the amount was ignored (HasMoneyState.java:7-10). Sold changes nothing (SoldState.java:7-9). The invariant is preserved. |
| `Transactions.SelectSlot` | src/HasMoneyState.java:12-21 | Idle and Sold raise nothing and change nothing. In HasMoney a settlement error propagates with balance, stock, phase and pending product unchanged. On success the pending product is the one bought, balance and slots are the settlement's, and the call returns in HasMoney if money is left and in Idle otherwise, never in Sold. The invariant is preserved. |
| `Transactions.DispenseProduct` | src/SoldState.java:16-32 | Sold moves to HasMoney exactly when the balance is positive and to Idle otherwise. Balance, slots and the pending product are untouched and nothing is notified. The other phases change nothing (IdleState.java:26-28, HasMoneyState.java:24-26). |
| `Transactions.RequestChange` | src/HasMoneyState.java:28-34 | HasMoney returns the full balance, sets it to 0 and moves to Idle. Idle and Sold return 0 and change nothing, even with money held in Sold. From a machine in the invariant and not in Sold, the whole balance is always returned and the machine ends Idle with balance 0. |
| `Transactions.AddSlot` | src/VendingMachine.java:135 | The new slot is appended after the existing ones; nothing else changes. |
| `Transactions.AddObserver` | src/VendingMachine.java:106-108 | The listener is appended at the end and earlier listeners keep their order; nothing else changes. |
| `Transactions.RemoveObserver` | src/VendingMachine.java:110-112 | Only the listener list changes, and only its first matching entry is removed. |
| `Transactions.Reset` | src/VendingMachine.java:139-143 | Slots are emptied, balance is 0 and the phase is Idle. Listeners and the pending product are left as they were. |
| `Transactions.IdleRow` | src/IdleState.java:5-35 | The Idle row of the table: insertMoney credits and moves to HasMoney; selectProduct, dispenseProduct and returnChange (which returns 0) change nothing. |
| `Transactions.HasMoneyRow` | src/HasMoneyState.java:4-35 | The HasMoney row: insertMoney is the plain credit; a rejected selection returns its error with nothing changed; a successful one sets the pending product and leaves Sold; dispenseProduct does nothing; returnChange gives the full balance, zeroes it and moves to Idle. |
| `Transactions.SoldRow` | src/SoldState.java:4-39 | The Sold row: insertMoney, selectProduct and returnChange (which returns 0) change nothing; dispenseProduct moves to HasMoney when money is left and to Idle otherwise. |
| `Invariants.ApplyKeepsRest` | src/VendingMachine.java:52-66 | Any single public call keeps a machine at rest: balance ≥ 0, Idle ⇒ balance = 0, and not in Sold. |
| `Invariants.RunKeepsRest` | src/VendingMachine.java:52-143 | The same holds after any sequence of public calls. |
| `Invariants.Reachable` | src/VendingMachine.java:36-44 | Every state reachable from a new machine has balance ≥ 0 and balance 0 whenever Idle, and Sold is never observable after a call returns. |
| `Invariants.RequestChangeTwice` | src/HasMoneyState.java:29-34 | Two change requests in a row return the full balance and then 0, and the balance is 0 after both. |
| `Invariants.RejectedSelectionChangesNothing` | src/VendingMachine.java:78-88 | A selection can only be rejected in HasMoney, and a rejected one leaves the whole machine unchanged and notifies nobody. |
| `VendingMachines.VendingMachine.constructor` | src/VendingMachine.java:36-44 | A new machine has balance 0, no slots, phase Idle, no pending product, no listeners and an empty delivery log. |
| `VendingMachines.VendingMachine.InsertMoney` | src/VendingMachine.java:52-54 | Dispatches on the phase. The new state and the output are exactly those of `Transactions.InsertMoney`. Its events are delivered to the listeners, and the invariant is kept. |
| `VendingMachines.VendingMachine.SelectSlot` | src/VendingMachine.java:56-58 | Dispatches on the phase. The HasMoney branch settles, records the product, enters Sold and calls the dispatching dispense. The result, state and deliveries are those of `Transactions.SelectSlot`. |
| `VendingMachines.VendingMachine.DispenseProduct` | src/VendingMachine.java:60-62 | State as `Transactions.DispenseProduct`; nothing is delivered. |
| `VendingMachines.VendingMachine.RequestChange` | src/VendingMachine.java:64-66 | Returned amount, state and deliveries are those of `Transactions.RequestChange`; the invariant is kept. |
| `VendingMachines.VendingMachine.DoInsertMoney` | src/VendingMachine.java:70-75 | In-place credit matching `Transactions.Credit`, including its deliveries. |
| `VendingMachines.VendingMachine.DoSelectProduct` | src/VendingMachine.java:77-93 | In-place settlement matching `Transactions.Settle`: the same result, balance, slot list and deliveries. |
| `VendingMachines.VendingMachine.DoReturnChange` | src/VendingMachine.java:95-102 | In-place change return matching `Transactions.ReturnChange`, including its deliveries. |
| `VendingMachines.VendingMachine.AddObserver` | src/VendingMachine.java:106-108 | The listener list grows as `Transactions.AddObserver` says; nothing else changes. |
| `VendingMachines.VendingMachine.RemoveObserver` | src/VendingMachine.java:110-112 | The listener list shrinks as `Transactions.RemoveObserver` says; nothing else changes. |
| `VendingMachines.VendingMachine.NotifyObservers` | src/VendingMachine.java:114-118 | The loop appends one delivery per listener, in list order: exactly `Fanout(observers, e)`. |
| `VendingMachines.VendingMachine.AddSlot` | src/VendingMachine.java:135 | The slot list grows as `Transactions.AddSlot` says. |
| `VendingMachines.VendingMachine.Reset` | src/VendingMachine.java:139-143 | State as `Transactions.Reset`; listeners and log are untouched. |
| `Controllers.Execute` | src/VendingMachineController.java:26-32 | A command has the effect of its verb. A rejected selection has no effect and notifies nobody, and the error does not propagate. |
| `Controllers.Purchase` | src/VendingMachineController.java:63-96 | An invalid index gives Rejected(InvalidSlot) and an empty slot gives Rejected(OutOfStock), whatever the payment. Without a passed pre-check and a successful payment, nothing is credited or bought: only the final change request acts. From a machine at rest (invariant holds, not in Sold), the purchase always ends Idle with balance 0. From such a machine, a paid purchase of an in-stock slot succeeds, takes exactly one unit from that slot and leaves every other slot unchanged. When the price is also positive, the events are exactly: credit of the price, the dispense, and change equal to the earlier balance if there was any. |
| `Controllers.VendingMachineController.constructor` | src/VendingMachineController.java:17-20 | The controller works on the machine it is given. |
| `Controllers.VendingMachineController.ExecuteCommand` | src/VendingMachineController.java:26-32 | The machine's new state and deliveries are those of `Controllers.Execute`. |
| `Controllers.VendingMachineController.InitializeVendingMachine` | src/VendingMachineController.java:37-51 | Appends four slots in order: Coca-Cola 2500 ×10, Pepsi 2450 ×5, Snickers 1800 ×1, Lays 3250 ×8. Then appends the display listener. Nothing else changes. |
| `Controllers.VendingMachineController.PurchaseProductWithPayment` | src/VendingMachineController.java:63-96 | The outcome, new state and deliveries are those of `Controllers.Purchase`. The change request runs on every path. |
| `Controllers.VendingMachineController.TryPurchase` | src/VendingMachineController.java:65-90 | The try block: pre-check, then payment, then credit and selection, with any rejection caught and reported as the outcome. |
| `Scenarios.SetUp` | src/VendingMachineTestRunner.java:45-50 | The fixture: a reset machine holding Coke (2500, 5 left) and Snickers (1800, none left), Idle with balance 0. |

The scenario methods in `scenarios.dfy` restate the six tests of
src/VendingMachineTestRunner.java:52-100 and the demo of
src/Main.java:107-117. The demo's fourth purchase, the second attempt on
slot 3, is rejected with OutOfStock.

## Behaviour kept as the code has it

The model follows the code in these places:
- The pending product is set on every purchase and never cleared
  (src/SoldState.java:18-31).
- Idle moves to HasMoney even when a non-positive amount was ignored. The
  result is a HasMoney machine with balance 0 (src/IdleState.java:8-13).
- `reset` leaves the listeners and the pending product as they were
  (src/VendingMachine.java:139-143).

## Left out

- Floating point: balances and prices are `double` in the source. Here they
  are exact integers in kopecks, so rounding is not modelled.
- The slot class is not part of this model. A slot is a value with a `nat`
  quantity, and taking a unit is assumed to subtract exactly one. The live
  slot list handed out by `getSlots` is not modelled, and neither is the
  aliasing of mutable slot objects. Slots change only through the machine's
  own operations.
- Listeners are opaque identities. What a listener does with an event, the
  fault a failing listener would propagate and any re-entrant call from a
  listener are not modelled. Notifications are recorded in a ghost log of
  (listener, event) pairs instead of formatted strings.
- All console output is left out: the phase messages, `displayProducts` and
  the formatted notification text. The `Main` console loop, its input
  parsing and the card-number format check are left out too.
- The payment collaborators (the processor and the cash and card strategies)
  are reduced to the `paid` flag. The question "was the authoriser asked?"
  is not observable in the model. `Controllers.Purchase` shows instead that
  a failed pre-check gives the same result whatever `paid` is.
- Product construction (builders, factory, descriptions, category
  attributes) is left out. A product is its name and price only.
- The static singleton instance is replaced by explicitly constructed
  machines. Each scenario therefore starts from a fresh machine with no
  listeners and no pending product, not from the shared reset instance.
- The command classes are reduced to the `Command` datatype. Their one-line
  `execute` is folded into `Controllers.Execute`.
- Concurrency is left out: the source is single-threaded.
