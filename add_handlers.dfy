/** The four form handlers `addProduct`, `addPurchase`, `addSale` and
    `addExpense`. Each sends its form to the backend and then, depending on
    the reply, either confirms, resets the form and reloads a fixed set of
    views, or reports the backend's message. */
module AddHandlers {
  import opened Values
  import opened Table

  datatype AddAction = AddProduct | AddPurchase | AddSale | AddExpense

  /** A view the handlers reload: the two product drop-downs, one of the
      tables, or the dashboard figures and charts (`loadDashboardData`). */
  datatype View = Dropdowns | TableOf(c: Collection) | DashboardData

  /** The value `apiCall` resolves to: the parsed reply, or `undefined`
      after a failed request. A reply that parses to JSON `null` is also
      `NoReply`: reading its `status` throws in the same way. */
  datatype ApiReply = Reply(status: Value, message: Value) | NoReply

  /** What a handler does once the reply is in: the alert it shows, whether
      it resets its form, and the views it reloads, in order. `Threw` is the
      TypeError of reading `status` from `undefined`: nothing more happens. */
  datatype Outcome = Done(alert: string, resetForm: bool, reload: seq<View>) | Threw

  /** The collection whose table each handler adds to. */
  function Target(a: AddAction): Collection
  {
    match a
    case AddProduct => Products
    case AddPurchase => Purchases
    case AddSale => Sales
    case AddExpense => Expenses
  }

  function SuccessAlert(a: AddAction): string
  {
    match a
    case AddProduct => "Product added!"
    case AddPurchase => "Purchase added!"
    case AddSale => "Sale added!"
    case AddExpense => "Expense added!"
  }

  /** The views reloaded after a successful add. Purchases and sales change
      stock, so they reload the products table too. */
  function Reloads(a: AddAction): (r: seq<View>)
    ensures TableOf(Target(a)) in r
    ensures Dropdowns in r <==> a == AddProduct
    ensures DashboardData in r <==> a != AddProduct
    ensures TableOf(Products) in r <==> a != AddExpense
    ensures forall v :: v in r && v.TableOf? ==> v.c == Target(a) || v.c == Products
    ensures forall i, j :: 0 <= i < j < |r| ==> r[i] != r[j]
  {
    match a
    case AddProduct => [Dropdowns, TableOf(Products)]
    case AddPurchase => [TableOf(Purchases), TableOf(Products), DashboardData]
    case AddSale => [TableOf(Sales), TableOf(Products), DashboardData]
    case AddExpense => [TableOf(Expenses), DashboardData]
  }

  /** The handler's reaction to `reply`. Only a status that is exactly the
      string "success" counts as success; any other reply alerts
      "Error: " followed by `String(message)`, so a missing message reads
      "undefined". */
  function Handle(a: AddAction, reply: ApiReply): (o: Outcome)
    ensures o.Threw? <==> reply.NoReply?
    ensures o.Done? ==> (o.resetForm <==> reply.status == Str("success"))
    ensures o.Done? && o.resetForm ==> o.alert == SuccessAlert(a) && o.reload == Reloads(a)
    ensures o.Done? && !o.resetForm ==> o.alert == "Error: " + StringForm(reply.message) && o.reload == []
  {
    match reply
    case NoReply => Threw
    case Reply(status, message) =>
      if status == Str("success") then Done(SuccessAlert(a), true, Reloads(a))
      else Done("Error: " + StringForm(message), false, [])
  }

  /** A successful add reloads the table it added to first, except for a
      product, whose drop-downs are refreshed before its table. */
  lemma OwnTableReloaded(a: AddAction)
    ensures a != AddProduct ==> Reloads(a)[0] == TableOf(Target(a))
    ensures a == AddProduct ==> Reloads(a) == [Dropdowns, TableOf(Target(a))]
  {
  }

  /** Any status other than the string "success", such as "error", a
      number or `null`, takes the error branch, and a missing message is
      shown as "undefined". */
  lemma ErrorWithoutMessage(a: AddAction, status: Value)
    requires status != Str("success")
    ensures Handle(a, Reply(status, Undefined)) == Done("Error: undefined", false, [])
  {
  }

  /** A product rejected as a duplicate: the backend's message is alerted
      after the "Error: " prefix, the form is kept and nothing is reloaded. */
  lemma DuplicateProductScenario()
    ensures Handle(AddProduct, Reply(Str("error"), Str("Duplicate name")))
         == Done("Error: Duplicate name", false, [])
  {
  }
}
