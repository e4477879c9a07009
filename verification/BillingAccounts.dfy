/**
 * One user's billing row and the statements that write it: the customer link,
 * the guarded subscription upsert, and the two ends of a refresh.
 */
module BillingAccounts {
  import opened Wrappers

  type CustomerId = string
  type SubscriptionId = string
  type Status = string
  type Time = int

  // The nullable Stripe columns and the two refresh counters.
  datatype Row = Row(
    customer: Option<CustomerId>,
    subscription: Option<SubscriptionId>,
    created: Option<Time>,
    status: Option<Status>,
    price: Option<string>,
    periodEnd: Option<Time>,
    cancelAtPeriodEnd: Option<bool>,
    eventCreated: Option<Time>,
    generation: nat,
    appliedGeneration: nat)

  // No row yet, or the row.
  type Account = Option<Row>

  // Column defaults of a row some other statement inserted.
  const DEFAULT_ROW := Row(None, None, None, None, None, None, Some(false), None, 0, 0)

  datatype Update = Update(
    customer: Option<CustomerId>,
    subscription: SubscriptionId,
    created: Option<Time>,
    status: Status,
    price: Option<string>,
    periodEnd: Option<Time>,
    cancelAtPeriodEnd: Option<bool>,
    eventCreated: Option<Time>)

  predicate Paid(status: Status) { status == "active" || status == "trialing" }

  predicate PaidOrNull(status: Option<Status>) { status.Some? && Paid(status.value) }

  // ----- SQL's three-valued logic -----

  datatype Truth = True | False | Unknown

  function Of(b: bool): Truth { if b then True else False }

  function Or(a: Truth, b: Truth): Truth {
    if a.True? || b.True? then True else if a.False? && b.False? then False else Unknown
  }

  function And(a: Truth, b: Truth): Truth {
    if a.False? || b.False? then False else if a.True? && b.True? then True else Unknown
  }

  function Equals<T(==)>(a: Option<T>, b: Option<T>): Truth {
    if a.None? || b.None? then Unknown else Of(a.value == b.value)
  }

  function AtLeast(a: Option<Time>, b: Option<Time>): Truth {
    if a.None? || b.None? then Unknown else Of(a.value >= b.value)
  }

  function Above(a: Option<Time>, b: Option<Time>): Truth {
    if a.None? || b.None? then Unknown else Of(a.value > b.value)
  }

  function IsNull<T>(a: Option<T>): Truth { Of(a.None?) }

  function Coalesce<T>(a: Option<T>, b: Option<T>): Option<T> { if a.Some? then a else b }

  // The WHERE clause of the upsert, conjunct by conjunct as SQL evaluates it.
  function Guard(row: Row, u: Update): Truth {
    And(And(
          Or(Or(IsNull(row.eventCreated), IsNull(u.eventCreated)), AtLeast(u.eventCreated, row.eventCreated)),
          Or(IsNull(row.customer), Equals(row.customer, u.customer))),
        Or(Or(Or(
                IsNull(row.subscription),
                Equals(row.subscription, Some(u.subscription))),
              And(Of(Paid(u.status)), Of(!PaidOrNull(row.status)))),
           And(Of(Paid(u.status) == PaidOrNull(row.status)),
               Or(IsNull(row.created), And(Of(u.created.Some?), Above(u.created, row.created))))))
  }

  predicate NotOlder(row: Row, u: Update) {
    row.eventCreated.Some? && u.eventCreated.Some? ==> row.eventCreated.value <= u.eventCreated.value
  }

  // Ordering of two different subscriptions: a paid one beats an unpaid one,
  // and within a rank the one created later wins.
  predicate Outranks(u: Update, row: Row) {
    if Paid(u.status) != PaidOrNull(row.status) then Paid(u.status)
    else row.created.None? || (u.created.Some? && u.created.value > row.created.value)
  }

  // NULLs never make the WHERE clause true by accident: it accepts exactly the
  // updates that are not older, keep the customer, and refresh or outrank the
  // stored subscription.
  predicate Accepts(row: Row, u: Update): (accepted: bool)
    ensures accepted <==>
              && NotOlder(row, u)
              && (row.customer.None? || u.customer == row.customer)
              && (row.subscription.None? || row.subscription == Some(u.subscription) || Outranks(u, row))
  {
    Guard(row, u).True?
  }

  function Overwritten(row: Row, u: Update): Row {
    row.(customer := Coalesce(u.customer, row.customer),
         subscription := Some(u.subscription),
         created := if row.subscription == Some(u.subscription) then Coalesce(u.created, row.created) else u.created,
         status := Some(u.status),
         price := Coalesce(u.price, row.price),
         periodEnd := Coalesce(u.periodEnd, row.periodEnd),
         cancelAtPeriodEnd := Coalesce(u.cancelAtPeriodEnd, row.cancelAtPeriodEnd),
         eventCreated := u.eventCreated)
  }

  function Inserted(u: Update): Row {
    Row(u.customer, Some(u.subscription), u.created, Some(u.status), u.price, u.periodEnd, u.cancelAtPeriodEnd,
        u.eventCreated, 0, 0)
  }

  // ----- What each statement does to the account -----

  function Generation(account: Account): nat { if account.None? then 0 else account.value.generation }

  function AfterUpdate(account: Account, u: Update): (Account, bool) {
    match account
    case None => (Some(Inserted(u)), true)
    case Some(row) => if Accepts(row, u) then (Some(Overwritten(row, u)), true) else (account, false)
  }

  function AfterSetCustomer(account: Account, candidate: CustomerId): (r: (Account, CustomerId))
    ensures LinkedTo(r.0, r.1)
    ensures account.Some? && account.value.customer.Some? ==> r.0 == account
    ensures account.Some? ==> r.0.value.(customer := None) == account.value.(customer := None)
    ensures (account.None? || account.value.customer.None?) ==> r.1 == candidate
  {
    match account
    case None => (Some(DEFAULT_ROW.(customer := Some(candidate))), candidate)
    case Some(row) =>
      var customer := Coalesce(row.customer, Some(candidate));
      (Some(row.(customer := customer)), customer.value)
  }

  function AfterReserve(account: Account): (r: (Account, nat))
    ensures r.0.Some? && r.0.value.generation == r.1 == Generation(account) + 1
    ensures account.Some? ==> r.0.value.(generation := account.value.generation) == account.value
  {
    match account
    case None => (Some(DEFAULT_ROW.(generation := 1)), 1)
    case Some(row) => (Some(row.(generation := row.generation + 1)), row.generation + 1)
  }

  // The closing transaction of a refresh. It holds the row lock from the first
  // read on, so the clock it stamps is read after every earlier apply.
  function AfterApply(account: Account, generation: nat, loaded: Update, clock: Time): Account {
    if account.None? || generation <= account.value.appliedGeneration then account
    else
      var (updated, applied) := AfterUpdate(account, loaded.(eventCreated := Some(clock)));
      if applied then Some(updated.value.(appliedGeneration := generation)) else account
  }

  class BillingTable {
    var account: Account

    constructor ()
      ensures account == None
    {
      account := None;
    }

    method SetStripeCustomer(candidate: CustomerId) returns (stored: CustomerId)
      modifies this
      ensures (account, stored) == AfterSetCustomer(old(account), candidate)
      ensures old(account).Some? && old(account).value.customer.Some? ==> stored == old(account).value.customer.value
    {
      if account.None? {
        account := Some(DEFAULT_ROW.(customer := Some(candidate)));
      } else if account.value.customer.None? {
        account := Some(account.value.(customer := Some(candidate)));
      }
      stored := account.value.customer.value;
    }

    method UpdateSubscription(u: Update) returns (applied: bool)
      modifies this
      ensures (account, applied) == AfterUpdate(old(account), u)
    {
      if account.None? {
        account := Some(Inserted(u));
        return true;
      }
      applied := Accepts(account.value, u);
      if applied {
        account := Some(Overwritten(account.value, u));
      }
    }

    method ReserveRefresh() returns (generation: nat)
      modifies this
      ensures (account, generation) == AfterReserve(old(account))
    {
      if account.None? {
        account := Some(DEFAULT_ROW);
      }
      generation := account.value.generation + 1;
      account := Some(account.value.(generation := generation));
    }

    // Only the newest completed refresh writes: an apply that changes the row
    // always raises the applied generation to its own.
    method ApplyRefresh(generation: nat, loaded: Update, clock: Time)
      modifies this
      ensures account == AfterApply(old(account), generation, loaded, clock)
      ensures account != old(account) ==>
                old(account).value.appliedGeneration < generation == account.value.appliedGeneration
    {
      if account.None? || generation <= account.value.appliedGeneration {
        return;
      }
      var applied := UpdateSubscription(loaded.(eventCreated := Some(clock)));
      if applied {
        account := Some(account.value.(appliedGeneration := generation));
      }
    }
  }

  // ----- Every run of statements -----

  datatype Statement =
    | SetCustomer(candidate: CustomerId)
    | Save(u: Update)
    | Reserve
    | Apply(generation: nat, loaded: Update, clock: Time)

  function Execute(account: Account, s: Statement): Account {
    match s
    case SetCustomer(candidate) => AfterSetCustomer(account, candidate).0
    case Save(u) => AfterUpdate(account, u).0
    case Reserve => AfterReserve(account).0
    case Apply(generation, loaded, clock) => AfterApply(account, generation, loaded, clock)
  }

  function ExecuteAll(account: Account, run: seq<Statement>): Account
    decreases |run|
  {
    if run == [] then account else ExecuteAll(Execute(account, run[0]), run[1..])
  }

  predicate LinkedTo(account: Account, customer: CustomerId) {
    account.Some? && account.value.customer == Some(customer)
  }

  /** A stored customer id survives every run of links, updates and refreshes. */
  lemma {:induction false} CustomerIsWriteOnce(account: Account, run: seq<Statement>, customer: CustomerId)
    requires LinkedTo(account, customer)
    ensures LinkedTo(ExecuteAll(account, run), customer)
    decreases |run|
  {
    if run != [] {
      CustomerIsWriteOnce(Execute(account, run[0]), run[1..], customer);
    }
  }

  predicate StoresPaid(account: Account) {
    account.Some? && account.value.subscription.Some? && PaidOrNull(account.value.status)
  }

  // The update a statement carries, if it carries one.
  function Carried(s: Statement): Option<Update> {
    match s
    case Save(u) => Some(u)
    case Apply(_, u, _) => Some(u)
    case _ => None
  }

  /**
   * A run can take an account from paid to unpaid only through an unpaid
   * update of the very subscription that is stored as paid at that moment, and
   * it is this update that turns the account unpaid: a different unpaid
   * subscription never displaces it.
   */
  lemma {:induction false} PaidIsNeverDisplaced(account: Account, run: seq<Statement>)
    requires StoresPaid(account) && !StoresPaid(ExecuteAll(account, run))
    ensures exists i :: 0 <= i < |run| && LosesItsOwnPayment(ExecuteAll(account, run[..i]), run[i])
    decreases |run|
  {
    assert run != [];
    var next := Execute(account, run[0]);
    if StoresPaid(next) {
      PaidIsNeverDisplaced(next, run[1..]);
      var i :| 0 <= i < |run[1..]| && LosesItsOwnPayment(ExecuteAll(next, run[1..][..i]), run[1..][i]);
      assert run[..i + 1][0] == run[0] && run[..i + 1][1..] == run[1..][..i];
      assert LosesItsOwnPayment(ExecuteAll(account, run[..i + 1]), run[i + 1]);
    } else {
      assert ExecuteAll(account, run[..0]) == account;
      assert LosesItsOwnPayment(ExecuteAll(account, run[..0]), run[0]);
    }
  }

  predicate LosesItsOwnPayment(account: Account, s: Statement) {
    && StoresPaid(account)
    && Carried(s).Some?
    && !Paid(Carried(s).value.status)
    && account.value.subscription == Some(Carried(s).value.subscription)
    && !StoresPaid(Execute(account, s))
  }

  // ----- Where the columns come from -----

  /**
   * An accepted update is stored: what it carries is in the row, and what it
   * leaves out stays as it was, or NULL in a new row. The creation time alone
   * is taken over as it is when the subscription changes. A refused update
   * changes nothing.
   */
  lemma AcceptedUpdateIsStored(account: Account, u: Update)
    ensures
      var (after, applied) := AfterUpdate(account, u);
      if !applied then account.Some? && after == account
      else
        && after.Some? && after.value.subscription == Some(u.subscription) && after.value.status == Some(u.status)
        && after.value.eventCreated == u.eventCreated
        && (u.customer.Some? ==> after.value.customer == u.customer)
        && (u.price.Some? ==> after.value.price == u.price)
        && (u.periodEnd.Some? ==> after.value.periodEnd == u.periodEnd)
        && (u.cancelAtPeriodEnd.Some? ==> after.value.cancelAtPeriodEnd == u.cancelAtPeriodEnd)
        && (u.created.Some? ==> after.value.created == u.created)
    ensures
      var (after, applied) := AfterUpdate(account, u);
      account.Some? && applied ==>
        && (u.customer.None? ==> after.value.customer == account.value.customer)
        && (u.price.None? ==> after.value.price == account.value.price)
        && (u.periodEnd.None? ==> after.value.periodEnd == account.value.periodEnd)
        && (u.cancelAtPeriodEnd.None? ==> after.value.cancelAtPeriodEnd == account.value.cancelAtPeriodEnd)
        && (u.created.None? ==>
              after.value.created ==
                if account.value.subscription == Some(u.subscription) then account.value.created else None)
        && after.value.generation == account.value.generation
        && after.value.appliedGeneration == account.value.appliedGeneration
    ensures
      var (after, applied) := AfterUpdate(account, u);
      account.None? ==>
        && applied && after.value.generation == 0 && after.value.appliedGeneration == 0
        && after.value.customer == u.customer && after.value.price == u.price && after.value.created == u.created
        && after.value.periodEnd == u.periodEnd && after.value.cancelAtPeriodEnd == u.cancelAtPeriodEnd
  {
  }

  // No row, or one no update has written: it carries no subscription.
  predicate Bare(account: Account) {
    account.Some? ==>
      var row := account.value;
      && row.subscription.None? && row.status.None? && row.created.None? && row.price.None? && row.periodEnd.None?
      && row.eventCreated.None? && row.cancelAtPeriodEnd == Some(false) && row.appliedGeneration == 0
  }

  /** Links and reservations alone never put a subscription column into a row, whatever their order. */
  lemma {:induction false} OnlyUpdatesSetColumns(account: Account, run: seq<Statement>)
    requires Bare(account) && forall i :: 0 <= i < |run| ==> Carried(run[i]).None?
    ensures Bare(ExecuteAll(account, run))
    decreases |run|
  {
    if run != [] {
      assert Carried(run[0]).None?;
      OnlyUpdatesSetColumns(Execute(account, run[0]), run[1..]);
    }
  }

  function Reservations(run: seq<Statement>): nat {
    if run == [] then 0 else (if run[0].Reserve? then 1 else 0) + Reservations(run[1..])
  }

  /** The generation counts the reservations, so no two refreshes share one. */
  lemma {:induction false} GenerationCountsReservations(account: Account, run: seq<Statement>)
    ensures Generation(ExecuteAll(account, run)) == Generation(account) + Reservations(run)
    decreases |run|
  {
    if run != [] {
      AcceptedUpdateMovesNoGeneration(account, run[0]);
      GenerationCountsReservations(Execute(account, run[0]), run[1..]);
    }
  }

  lemma AcceptedUpdateMovesNoGeneration(account: Account, s: Statement)
    ensures !s.Reserve? ==> Generation(Execute(account, s)) == Generation(account)
    ensures s.Reserve? ==> Generation(Execute(account, s)) == Generation(account) + 1
  {
  }

  /** Active and trialing subscriptions displace any other one; within a rank the later created does. */
  lemma ActiveAndTrialingOutrank(row: Row, u: Update)
    requires row.subscription.Some? && row.subscription != Some(u.subscription)
    requires row.eventCreated.None? && u.customer == row.customer
    ensures
      var paid := u.status == "active" || u.status == "trialing";
      var storedPaid := row.status == Some("active") || row.status == Some("trialing");
      AfterUpdate(Some(row), u).1 <==>
        (paid && !storedPaid)
        || (paid == storedPaid && (row.created.None? || (u.created.Some? && row.created.value < u.created.value)))
  {
  }

  // ----- Delivery order -----

  function SaveAll(account: Account, updates: seq<Update>): Account {
    if updates == [] then account
    else AfterUpdate(SaveAll(account, updates[..|updates| - 1]), updates[|updates| - 1]).0
  }

  // Plain webhook deliveries for one customer: no event times, and creation
  // time and status depend on the subscription only, telling any two apart.
  ghost predicate Consistent(updates: seq<Update>, customer: CustomerId) {
    && (forall u :: u in updates ==> u.customer == Some(customer) && u.eventCreated.None? && u.created.Some?)
    && (forall u, v :: u in updates && v in updates && u.subscription == v.subscription ==>
          u.created == v.created && u.status == v.status)
    && (forall u, v :: u in updates && v in updates && u.created == v.created ==> u.subscription == v.subscription)
  }

  predicate Unsubscribed(account: Account, customer: CustomerId) {
    account.None? ||
    (account.value.subscription.None? && (account.value.customer.None? || account.value.customer == Some(customer)))
  }

  predicate AtMost(u: Update, v: Update)
    requires u.created.Some? && v.created.Some?
  {
    if Paid(u.status) != Paid(v.status) then Paid(v.status) else u.created.value <= v.created.value
  }

  predicate Stores(account: Account, u: Update) {
    && account.Some?
    && account.value.subscription == Some(u.subscription)
    && account.value.created == u.created
    && account.value.status == Some(u.status)
  }

  ghost predicate Greatest(updates: seq<Update>, best: Update)
    requires forall u :: u in updates ==> u.created.Some?
  {
    best in updates && forall u :: u in updates ==> AtMost(u, best)
  }

  lemma {:induction false} SavesTheGreatest(account: Account, updates: seq<Update>, customer: CustomerId)
    returns (best: Update)
    requires Unsubscribed(account, customer) && updates != [] && Consistent(updates, customer)
    ensures Greatest(updates, best) && Stores(SaveAll(account, updates), best)
    ensures SaveAll(account, updates).value.customer == Some(customer)
            && SaveAll(account, updates).value.eventCreated == None
  {
    var last := updates[|updates| - 1];
    var earlier := updates[..|updates| - 1];
    assert last in updates && forall u :: u in updates <==> u in earlier || u == last;
    if earlier == [] {
      best := last;
    } else {
      var before := SavesTheGreatest(account, earlier, customer);
      best := if AtMost(before, last) then last else before;
    }
  }

  /** Two deliveries of the same updates, in any order and with any repeats, store the same subscription. */
  lemma DeliveryOrderIsIrrelevant(account: Account, other: Account, updates: seq<Update>, shuffled: seq<Update>,
                                  customer: CustomerId)
    requires Unsubscribed(account, customer) && Unsubscribed(other, customer)
    requires updates != [] && Consistent(updates, customer)
    requires forall u :: u in updates <==> u in shuffled
    ensures exists best :: Greatest(updates, best)
                           && Stores(SaveAll(account, updates), best) && Stores(SaveAll(other, shuffled), best)
  {
    assert updates[0] in shuffled;
    var best := SavesTheGreatest(account, updates, customer);
    var same := SavesTheGreatest(other, shuffled, customer);
    assert AtMost(best, same) && AtMost(same, best);
  }
}
