/**
 * The refresh protocol of one account: reserve a generation, load the
 * subscription from Stripe without holding the row, apply if still newest.
 * Any number of refreshes interleave with each other, with changes at Stripe
 * and with the customer link; any of them may fail at any point.
 */
module SubscriptionRefresh {
  import opened Wrappers
  import opened BillingAccounts

  type RefreshId = string

  datatype Flight = Reserved(generation: nat) | Loaded(generation: nat, update: Update)

  datatype State = State(account: Account, stripe: Update, clock: Time, flights: map<RefreshId, Flight>)

  datatype Step =
    | StripeChanges(snapshot: Update)
    | TimePasses(clock: Time)
    | LinkCustomer
    | Begin(id: RefreshId)
    | Load(id: RefreshId)
    | Fail(id: RefreshId)
    | Finish(id: RefreshId)

  // The one subscription and customer of the account: every snapshot Stripe
  // hands out carries both.
  predicate SameSubscription(u: Update, v: Update) {
    u.customer.Some? && u.customer == v.customer && u.subscription == v.subscription && v.cancelAtPeriodEnd.Some?
  }

  // A step that is not possible in a state leaves it unchanged, so a sequence
  // of steps is an arbitrary interleaving.
  function Do(s: State, step: Step): State {
    match step
    case StripeChanges(snapshot) =>
      if SameSubscription(s.stripe, snapshot) then s.(stripe := snapshot) else s
    case TimePasses(clock) =>
      if s.clock <= clock then s.(clock := clock) else s
    case LinkCustomer =>
      if s.stripe.customer.Some? then s.(account := AfterSetCustomer(s.account, s.stripe.customer.value).0) else s
    case Begin(id) =>
      if id in s.flights then s
      else
        var (account, generation) := AfterReserve(s.account);
        s.(account := account, flights := s.flights[id := Reserved(generation)])
    case Load(id) =>
      if id in s.flights && s.flights[id].Reserved?
      then s.(flights := s.flights[id := Loaded(s.flights[id].generation, s.stripe)])
      else s
    case Fail(id) =>
      s.(flights := s.flights - {id})
    case Finish(id) =>
      if id in s.flights && s.flights[id].Loaded?
      then s.(account := AfterApply(s.account, s.flights[id].generation, s.flights[id].update, s.clock),
              flights := s.flights - {id})
      else s
  }

  function Run(s: State, steps: seq<Step>): State
    decreases |steps|
  {
    if steps == [] then s else Run(Do(s, steps[0]), steps[1..])
  }

  // What holds in every reachable state.
  ghost predicate Sound(s: State) {
    && SameSubscription(s.stripe, s.stripe)
    && (s.account.Some? ==>
          var row := s.account.value;
          && (row.customer.None? || row.customer == s.stripe.customer)
          && (row.subscription.None? || row.subscription == Some(s.stripe.subscription))
          && (row.eventCreated.None? || row.eventCreated.value <= s.clock)
          && row.appliedGeneration <= row.generation)
    && (forall id :: id in s.flights ==> 1 <= s.flights[id].generation <= Generation(s.account))
    && (forall id :: id in s.flights && s.flights[id].Loaded? ==> SameSubscription(s.stripe, s.flights[id].update))
  }

  // An account nothing has been stored for yet.
  lemma NewAccountIsSound(stripe: Update, clock: Time)
    requires SameSubscription(stripe, stripe)
    ensures Sound(State(None, stripe, clock, map[]))
  {
  }

  lemma StepStaysSound(s: State, step: Step)
    requires Sound(s)
    ensures Sound(Do(s, step))
  {
    if step.Finish? && step.id in s.flights && s.flights[step.id].Loaded? {
      ApplyTakesEffect(s, step.id);
    }
  }

  lemma {:induction false} SoundAlways(s: State, steps: seq<Step>)
    requires Sound(s)
    ensures Sound(Run(s, steps))
    decreases |steps|
  {
    if steps != [] {
      StepStaysSound(s, steps[0]);
      SoundAlways(Do(s, steps[0]), steps[1..]);
    }
  }

  predicate Mirrors(account: Account, u: Update) {
    && account.Some?
    && account.value.customer == u.customer
    && account.value.subscription == Some(u.subscription)
    && account.value.status == Some(u.status)
    && account.value.cancelAtPeriodEnd == u.cancelAtPeriodEnd
    && (u.created.Some? ==> account.value.created == u.created)
    && (u.price.Some? ==> account.value.price == u.price)
    && (u.periodEnd.Some? ==> account.value.periodEnd == u.periodEnd)
  }

  // Generations above `mark` were reserved after Stripe's last change.
  ghost predicate Settled(s: State, mark: nat) {
    && Sound(s)
    && mark <= Generation(s.account)
    && (forall id :: id in s.flights && s.flights[id].Loaded? && s.flights[id].generation > mark ==>
          s.flights[id].update == s.stripe)
    && (s.account.Some? && s.account.value.appliedGeneration > mark ==> Mirrors(s.account, s.stripe))
  }

  // A refresh above the applied generation is never turned away: its stamp is
  // the newest, and customer and subscription are the account's own.
  lemma ApplyTakesEffect(s: State, id: RefreshId)
    requires Sound(s) && id in s.flights && s.flights[id].Loaded?
    ensures
      var flight := s.flights[id];
      var after := AfterApply(s.account, flight.generation, flight.update, s.clock);
      if flight.generation <= s.account.value.appliedGeneration then after == s.account
      else Mirrors(after, flight.update)
           && after.value.appliedGeneration == flight.generation
           && after.value.generation == s.account.value.generation
           && after.value.eventCreated == Some(s.clock)
  {
    assert Accepts(s.account.value, s.flights[id].update.(eventCreated := Some(s.clock)));
  }

  lemma StepStaysSettled(s: State, step: Step, mark: nat)
    requires Settled(s, mark) && !step.StripeChanges?
    ensures Settled(Do(s, step), mark) && Do(s, step).stripe == s.stripe
    ensures s.account.Some? ==>
              && Do(s, step).account.Some?
              && s.account.value.appliedGeneration <= Do(s, step).account.value.appliedGeneration
  {
    StepStaysSound(s, step);
    if step.Finish? && step.id in s.flights && s.flights[step.id].Loaded? {
      ApplyTakesEffect(s, step.id);
    }
  }

  lemma {:induction false} StaysSettled(s: State, steps: seq<Step>, mark: nat)
    requires Settled(s, mark)
    requires forall i :: 0 <= i < |steps| ==> !steps[i].StripeChanges?
    ensures Settled(Run(s, steps), mark) && Run(s, steps).stripe == s.stripe
    ensures s.account.Some? ==>
              && Run(s, steps).account.Some?
              && s.account.value.appliedGeneration <= Run(s, steps).account.value.appliedGeneration
    decreases |steps|
  {
    if steps != [] {
      StepStaysSettled(s, steps[0], mark);
      StaysSettled(Do(s, steps[0]), steps[1..], mark);
    }
  }

  lemma {:induction false} RunSplits(s: State, first: seq<Step>, second: seq<Step>)
    ensures Run(s, first + second) == Run(Run(s, first), second)
    decreases |first|
  {
    if first == [] {
      assert first + second == second;
    } else {
      assert (first + second)[1..] == first[1..] + second;
      RunSplits(Do(s, first[0]), first[1..], second);
    }
  }

  lemma FinishSettles(now: State, id: RefreshId, later: seq<Step>, mark: nat)
    requires Settled(now, mark)
    requires forall i :: 0 <= i < |later| ==> !later[i].StripeChanges?
    requires id in now.flights && now.flights[id].Loaded? && now.flights[id].generation > mark
    ensures Mirrors(Run(now, [Finish(id)] + later).account, now.stripe)
  {
    assert now.account.Some?;
    ApplyTakesEffect(now, id);
    var applied := Do(now, Finish(id));
    assert applied.account.value.appliedGeneration > mark;
    StepStaysSettled(now, Finish(id), mark);
    assert Run(now, [Finish(id)] + later) == Run(applied, later) by {
      assert ([Finish(id)] + later)[1..] == later;
    }
    StaysSettled(applied, later, mark);
  }

  // A refresh that was not in flight at the mark reserved its generation later.
  lemma {:induction false} LaterFlightsAreNewer(s: State, steps: seq<Step>, mark: nat, earlier: set<RefreshId>)
    requires mark <= Generation(s.account)
    requires forall id :: id in s.flights ==> id in earlier || s.flights[id].generation > mark
    ensures forall id :: id in Run(s, steps).flights ==> id in earlier || Run(s, steps).flights[id].generation > mark
    decreases |steps|
  {
    if steps != [] {
      GenerationNeverFalls(s, steps[0]);
      LaterFlightsAreNewer(Do(s, steps[0]), steps[1..], mark, earlier);
    }
  }

  lemma GenerationNeverFalls(s: State, step: Step)
    ensures Generation(s.account) <= Generation(Do(s, step).account)
  {
  }

  /**
   * Convergence. Take any run from a sound start; after its last change at
   * Stripe, let one refresh that begins since then load and reach its apply
   * step. From that moment on, whatever else is in flight, reordered or
   * failing, the row mirrors Stripe's final snapshot.
   */
  lemma RefreshConverges(start: State, past: seq<Step>, during: seq<Step>, id: RefreshId, later: seq<Step>)
    requires Sound(start)
    requires forall i :: 0 <= i < |during| ==> !during[i].StripeChanges?
    requires forall i :: 0 <= i < |later| ==> !later[i].StripeChanges?
    requires
      var last := Run(start, past);
      var now := Run(last, during);
      id !in last.flights && id in now.flights && now.flights[id].Loaded?
    ensures
      var last := Run(start, past);
      Mirrors(Run(last, during + [Finish(id)] + later).account, last.stripe)
  {
    SoundAlways(start, past);
    var last := Run(start, past);
    var mark := Generation(last.account);
    StaysSettled(last, during, mark);
    LaterFlightsAreNewer(last, during, mark, last.flights.Keys);
    var now, tail := Run(last, during), [Finish(id)] + later;
    FinishSettles(now, id, later, mark);
    RunSplits(last, during, tail);
    assert during + [Finish(id)] + later == during + tail;
    assert Run(last, during + [Finish(id)] + later) == Run(now, tail);
  }

  /** A refresh nobody disturbs takes effect: the row mirrors Stripe, stamped with the database's clock. */
  lemma UndisturbedRefreshMirrors(s: State, id: RefreshId)
    requires Sound(s) && id !in s.flights
    ensures
      var after := Run(s, [Begin(id), Load(id), Finish(id)]);
      && Mirrors(after.account, s.stripe) && after.account.value.eventCreated == Some(s.clock)
      && after.flights == s.flights && after.stripe == s.stripe
  {
    var begun, loaded := Do(s, Begin(id)), Do(Do(s, Begin(id)), Load(id));
    StepStaysSound(s, Begin(id));
    StepStaysSound(begun, Load(id));
    ApplyTakesEffect(loaded, id);
    RunOfThree(s, Begin(id), Load(id), Finish(id));
  }

  /** A refresh that fails leaves the row as it is; a link fills in a customer that is still missing. */
  lemma FailuresAndLinks(s: State, id: RefreshId)
    requires Sound(s)
    ensures Do(s, Fail(id)) == s.(flights := s.flights - {id})
    ensures LinkedTo(Do(s, LinkCustomer).account, s.stripe.customer.value)
  {
  }

  /** Whatever Stripe changes, the next undisturbed refresh brings it into the row, with its later time. */
  lemma StripeChangeIsMirrored(s: State, snapshot: Update, clock: Time, id: RefreshId)
    requires Sound(s) && id !in s.flights && SameSubscription(s.stripe, snapshot) && s.clock <= clock
    ensures
      var changed := Do(Do(s, StripeChanges(snapshot)), TimePasses(clock));
      var after := Run(changed, [Begin(id), Load(id), Finish(id)]);
      Mirrors(after.account, snapshot) && after.account.value.eventCreated == Some(clock)
  {
    var changed := Do(s, StripeChanges(snapshot));
    StepStaysSound(s, StripeChanges(snapshot));
    StepStaysSound(changed, TimePasses(clock));
    UndisturbedRefreshMirrors(Do(changed, TimePasses(clock)), id);
  }

  lemma RunOfThree(s: State, first: Step, second: Step, third: Step)
    ensures Run(s, [first, second, third]) == Do(Do(Do(s, first), second), third)
  {
    var next := Do(s, first);
    assert [first, second, third][1..] == [second, third];
    assert [second, third][1..] == [third];
    assert Run(Do(next, second), [third]) == Do(Do(next, second), third) by { assert [third][1..] == []; }
  }

  // ----- Two subscriptions share one counter -----

  // A canceled subscription and a paid one are refreshed at the same time;
  // `paidFirst` says whose apply step comes first.
  function BothApplied(account: Account, canceledGeneration: nat, paidGeneration: nat, canceled: Update, paid: Update,
                       paidFirst: bool, first: Time, second: Time): Account
  {
    if paidFirst
    then AfterApply(AfterApply(account, paidGeneration, paid, first), canceledGeneration, canceled, second)
    else AfterApply(AfterApply(account, canceledGeneration, canceled, first), paidGeneration, paid, second)
  }

  // On its own, the snapshot would get past the account's guard now.
  predicate WouldApply(account: Account, loaded: Update, clock: Time) {
    account.Some? && Accepts(account.value, loaded.(eventCreated := Some(clock)))
  }

  /**
   * The generation counter does not know about subscriptions. Whatever the
   * account stored before, it ends up paid exactly if the guard keeps the
   * canceled subscription out, or else the paid refresh applied first and was
   * not kept out itself, or applied second but reserved last. Otherwise the
   * generation check drops the paid subscription.
   */
  lemma SharedCounterKeepsPaid(account: Account, canceledGeneration: nat, paidGeneration: nat, canceled: Update,
                               paid: Update, paidFirst: bool, first: Time, second: Time)
    requires account.Some? && (account.value.customer.None? || account.value.customer == paid.customer)
    requires paid.customer.Some? && canceled.customer == paid.customer
    requires account.value.appliedGeneration < canceledGeneration && account.value.appliedGeneration < paidGeneration
    requires canceledGeneration != paidGeneration && canceled.subscription != paid.subscription
    requires !Paid(canceled.status) && Paid(paid.status)
    requires (account.value.eventCreated.Some? ==> account.value.eventCreated.value <= first) && first <= second
    ensures StoresPaid(BothApplied(account, canceledGeneration, paidGeneration, canceled, paid, paidFirst,
                                   first, second))
            <==> !WouldApply(account, canceled, first)
                 || (if paidFirst then WouldApply(account, paid, first) else canceledGeneration < paidGeneration)
  {
    if paidFirst {
      PaidAppliesFirst(account, canceledGeneration, paidGeneration, canceled, paid, first, second);
    } else {
      CanceledAppliesFirst(account, canceledGeneration, paidGeneration, canceled, paid, first, second);
    }
  }

  lemma PaidAppliesFirst(account: Account, canceledGeneration: nat, paidGeneration: nat, canceled: Update, paid: Update,
                         first: Time, second: Time)
    requires account.Some? && (account.value.customer.None? || account.value.customer == paid.customer)
    requires paid.customer.Some? && canceled.customer == paid.customer
    requires account.value.appliedGeneration < canceledGeneration && account.value.appliedGeneration < paidGeneration
    requires canceled.subscription != paid.subscription && !Paid(canceled.status) && Paid(paid.status)
    requires (account.value.eventCreated.Some? ==> account.value.eventCreated.value <= first) && first <= second
    ensures StoresPaid(BothApplied(account, canceledGeneration, paidGeneration, canceled, paid, true, first, second))
            <==> !WouldApply(account, canceled, first) || WouldApply(account, paid, first)
  {
    var once := AfterApply(account, paidGeneration, paid, first);
    if WouldApply(account, paid, first) {
      assert once.value.subscription == Some(paid.subscription) && once.value.status == Some(paid.status);
    } else {
      assert once == account && StoresPaid(account);
    }
  }

  lemma CanceledAppliesFirst(account: Account, canceledGeneration: nat, paidGeneration: nat, canceled: Update,
                             paid: Update, first: Time, second: Time)
    requires account.Some? && (account.value.customer.None? || account.value.customer == paid.customer)
    requires paid.customer.Some? && canceled.customer == paid.customer
    requires account.value.appliedGeneration < canceledGeneration && account.value.appliedGeneration < paidGeneration
    requires canceledGeneration != paidGeneration && canceled.subscription != paid.subscription
    requires !Paid(canceled.status) && Paid(paid.status)
    requires (account.value.eventCreated.Some? ==> account.value.eventCreated.value <= first) && first <= second
    ensures StoresPaid(BothApplied(account, canceledGeneration, paidGeneration, canceled, paid, false, first, second))
            <==> !WouldApply(account, canceled, first) || canceledGeneration < paidGeneration
  {
    var once := AfterApply(account, canceledGeneration, canceled, first);
    if WouldApply(account, canceled, first) {
      assert once.value.subscription == Some(canceled.subscription) && once.value.status == Some(canceled.status);
      assert once.value.appliedGeneration == canceledGeneration;
    } else {
      assert once == account;
    }
  }

  const CANCELED := Update(Some("cus_1"), "sub_old", Some(1), "canceled", None, None, Some(false), None)
  const PAID := Update(Some("cus_1"), "sub_new", Some(2), "active", None, None, Some(false), None)

  // Both refreshes begin, the paid one first, and the canceled one applies first.
  const CROSSED: seq<Statement> := [Reserve, Reserve, Apply(2, CANCELED, 0), Apply(1, PAID, 0)]

  /** A new account on which the paid subscription is dropped. */
  lemma PaidSubscriptionDroppedRun()
    ensures LinkedTo(ExecuteAll(None, CROSSED), "cus_1") && !StoresPaid(ExecuteAll(None, CROSSED))
  {
    var reserved := Some(DEFAULT_ROW.(generation := 2));
    assert Execute(Execute(None, Reserve), Reserve) == reserved;
    SharedCounterKeepsPaid(reserved, 2, 1, CANCELED, PAID, false, 0, 0);
    ExecuteFour(None, CROSSED);
    assert WouldApply(reserved, CANCELED, 0);
  }

  lemma ExecuteFour(account: Account, run: seq<Statement>)
    requires |run| == 4
    ensures ExecuteAll(account, run) == Execute(Execute(Execute(Execute(account, run[0]), run[1]), run[2]), run[3])
  {
    var last := Execute(Execute(Execute(account, run[0]), run[1]), run[2]);
    assert run[1..][1..] == run[2..] && run[2..][1..] == run[3..] && run[3..][1..] == [];
    assert ExecuteAll(last, run[3..]) == Execute(last, run[3]);
    assert ExecuteAll(account, run) == ExecuteAll(Execute(Execute(account, run[0]), run[1]), run[2..]);
  }
}
