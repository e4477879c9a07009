/**
 * Checkout links a Stripe customer to an account and neutralizes the ones it
 * created in vain. Checkouts of one user race each other, subscription
 * refreshes and account deletion; a customer write that reported an error may
 * still land later.
 */
module CheckoutLinking {
  import opened Wrappers
  import opened BillingAccounts

  type UserId = string
  type FlowId = string

  datatype Flow =
    | Unlinked(user: UserId)                              // read an account without a customer
    | Candidate(user: UserId, customer: CustomerId)       // created one at Stripe
    | WriteFailed(user: UserId, customer: CustomerId)     // saving it reported an error
    | OwnerExists(user: UserId, customer: CustomerId)     // reconciling: the user row is still there
    | Discarding(user: UserId, customer: CustomerId)      // decided to neutralize the candidate
    | Finished

  datatype State = State(
    users: map<UserId, Account>,              // existing users and their billing rows
    gone: set<UserId>,                        // deleted users; ids are never reused
    owner: map<CustomerId, UserId>,           // whom Stripe created each customer for
    flows: map<FlowId, Flow>,
    uncertain: set<(UserId, CustomerId)>,     // failed writes that may still land
    neutralized: set<CustomerId>)             // by the checkout flow

  datatype Step =
    | Register(user: UserId)
    | Delete(user: UserId)
    | Begin(flow: FlowId, user: UserId)
    | Create(flow: FlowId, customer: CustomerId)
    | Write(flow: FlowId)
    | WriteErrors(flow: FlowId)
    | Land(user: UserId, customer: CustomerId)
    | LookUpOwner(flow: FlowId)
    | LookUpAccount(flow: FlowId)
    | Neutralize(flow: FlowId)
    | Abandon(flow: FlowId)
    | Refresh(user: UserId, statement: Statement)

  function CustomerOf(s: State, user: UserId): Option<CustomerId> {
    if user in s.users && s.users[user].Some? then s.users[user].value.customer else None
  }

  // stripe_customer_id is unique across accounts.
  predicate Taken(s: State, customer: CustomerId, except: UserId) {
    exists user :: user in s.users && user != except && CustomerOf(s, user) == Some(customer)
  }

  // SetStripeCustomer for an existing user, unless the unique index refuses it.
  predicate CanWrite(s: State, user: UserId, customer: CustomerId) {
    user in s.users && (CustomerOf(s, user).None? ==> !Taken(s, customer, user))
  }

  function Written(s: State, user: UserId, customer: CustomerId): State
    requires user in s.users
  {
    s.(users := s.users[user := AfterSetCustomer(s.users[user], customer).0])
  }

  // A subscription update for a user carries no customer or one Stripe created
  // for that user: the load step refuses any other owner in the metadata.
  predicate OwnUpdate(s: State, user: UserId, statement: Statement) {
    match Carried(statement)
    case None => !statement.SetCustomer?
    case Some(u) => u.customer.Some? ==>
                      && u.customer.value in s.owner && s.owner[u.customer.value] == user
                      && !Taken(s, u.customer.value, user)
  }

  // A step that is not possible in a state leaves it unchanged.
  function Do(s: State, step: Step): State {
    match step
    case Register(user) =>
      if user in s.users || user in s.gone then s else s.(users := s.users[user := None])
    case Delete(user) =>
      if user in s.users then s.(users := s.users - {user}, gone := s.gone + {user}) else s
    case Begin(flow, user) =>
      if flow in s.flows || user !in s.users then s
      else s.(flows := s.flows[flow := if CustomerOf(s, user).None? then Unlinked(user) else Finished])
    case Create(flow, customer) =>
      // The idempotency key is the user's: a replay returns the user's earlier
      // candidate, anything else is a customer never seen before.
      if flow in s.flows && s.flows[flow].Unlinked? && (customer in s.owner ==> s.owner[customer] == s.flows[flow].user)
      then s.(owner := s.owner[customer := s.flows[flow].user],
              flows := s.flows[flow := Candidate(s.flows[flow].user, customer)])
      else s
    case Write(flow) =>
      if flow in s.flows && s.flows[flow].Candidate? then
        var Candidate(user, customer) := s.flows[flow];
        if !CanWrite(s, user, customer) then s.(flows := s.flows[flow := WriteFailed(user, customer)])
        else
          var stored := AfterSetCustomer(s.users[user], customer).1;
          var next := if stored == customer then Finished else Discarding(user, customer);
          Written(s, user, customer).(flows := s.flows[flow := next])
      else s
    case WriteErrors(flow) =>
      if flow in s.flows && s.flows[flow].Candidate? then
        var Candidate(user, customer) := s.flows[flow];
        s.(flows := s.flows[flow := WriteFailed(user, customer)], uncertain := s.uncertain + {(user, customer)})
      else s
    case Land(user, customer) =>
      if (user, customer) in s.uncertain && CanWrite(s, user, customer)
      then Written(s, user, customer).(uncertain := s.uncertain - {(user, customer)})
      else s
    case LookUpOwner(flow) =>
      if flow in s.flows && s.flows[flow].WriteFailed? then
        var WriteFailed(user, customer) := s.flows[flow];
        var next := if user in s.users then OwnerExists(user, customer) else Discarding(user, customer);
        s.(flows := s.flows[flow := next])
      else s
    case LookUpAccount(flow) =>
      if flow in s.flows && s.flows[flow].OwnerExists? then
        var OwnerExists(user, customer) := s.flows[flow];
        // A user deleted in between reads as an account without a customer.
        var linked := CustomerOf(s, user);
        var next := if linked.None? || linked == Some(customer) then Finished else Discarding(user, customer);
        s.(flows := s.flows[flow := next])
      else s
    case Neutralize(flow) =>
      if flow in s.flows && s.flows[flow].Discarding?
      then s.(neutralized := s.neutralized + {s.flows[flow].customer}, flows := s.flows[flow := Finished])
      else s
    case Abandon(flow) =>
      if flow in s.flows then s.(flows := s.flows[flow := Finished]) else s
    case Refresh(user, statement) =>
      if user in s.users && OwnUpdate(s, user, statement)
      then s.(users := s.users[user := Execute(s.users[user], statement)])
      else s
  }

  function Run(s: State, steps: seq<Step>): State
    decreases |steps|
  {
    if steps == [] then s else Run(Do(s, steps[0]), steps[1..])
  }

  const NOTHING := State(map[], {}, map[], map[], {}, {})

  // The customer's owner has another customer for good, or is gone for good.
  predicate Spare(s: State, user: UserId, customer: CustomerId) {
    && customer in s.owner && s.owner[customer] == user
    && (user in s.users ==> CustomerOf(s, user).Some? && CustomerOf(s, user) != Some(customer))
    && (user in s.users || user in s.gone)
  }

  predicate Known(s: State, user: UserId, customer: CustomerId) {
    && customer in s.owner && s.owner[customer] == user
    && (user in s.users || user in s.gone)
  }

  predicate FlowSound(s: State, f: Flow) {
    match f
    case Unlinked(user) => user in s.users || user in s.gone
    case Discarding(user, customer) => Spare(s, user, customer)
    case Finished => true
    case _ => Known(s, f.user, f.customer)
  }

  ghost predicate Sound(s: State) {
    && s.users.Keys !! s.gone
    && (forall user :: user in s.users && CustomerOf(s, user).Some? ==> Known(s, user, CustomerOf(s, user).value))
    && (forall user, customer :: (user, customer) in s.uncertain ==> Known(s, user, customer))
    && (forall flow :: flow in s.flows ==> FlowSound(s, s.flows[flow]))
    && (forall customer :: customer in s.neutralized ==> customer in s.owner && Spare(s, s.owner[customer], customer))
  }

  // Every step keeps owners, users and links, and so every spare customer spare.
  lemma StepKeepsLinks(s: State, step: Step, user: UserId, customer: CustomerId)
    requires Sound(s) && Known(s, user, customer)
    ensures Known(Do(s, step), user, customer)
    ensures Spare(s, user, customer) ==> Spare(Do(s, step), user, customer)
    ensures user in s.users && CustomerOf(s, user).Some? ==>
              user in Do(s, step).gone || CustomerOf(Do(s, step), user) == CustomerOf(s, user)
  {
    if step.Refresh? && user == step.user && user in s.users && CustomerOf(s, user).Some? {
      CustomerIsWriteOnce(s.users[user], [step.statement], CustomerOf(s, user).value);
      assert ExecuteAll(s.users[user], [step.statement]) == Execute(s.users[user], step.statement);
    }
  }

  lemma StepStaysSound(s: State, step: Step)
    requires Sound(s)
    ensures Sound(Do(s, step))
  {
    var after := Do(s, step);
    forall user | user in after.users && CustomerOf(after, user).Some?
      ensures Known(after, user, CustomerOf(after, user).value)
    {
      LinksAreOwned(s, step, user);
    }
    forall flow | flow in after.flows ensures FlowSound(after, after.flows[flow]) {
      FlowStaysSound(s, step, flow);
    }
    forall user, customer | (user, customer) in after.uncertain ensures Known(after, user, customer) {
      if (user, customer) in s.uncertain { StepKeepsLinks(s, step, user, customer); }
    }
    forall customer | customer in after.neutralized
      ensures customer in after.owner && Spare(after, after.owner[customer], customer)
    {
      if customer in s.neutralized { StepKeepsLinks(s, step, s.owner[customer], customer); }
    }
  }

  lemma FlowStaysSound(s: State, step: Step, flow: FlowId)
    requires Sound(s) && flow in Do(s, step).flows
    ensures FlowSound(Do(s, step), Do(s, step).flows[flow])
  {
    if flow in s.flows {
      assert FlowSound(s, s.flows[flow]);
      var f := s.flows[flow];
      if !f.Unlinked? && !f.Finished? {
        StepKeepsLinks(s, step, f.user, f.customer);
      }
    }
  }

  // A link is never to a customer Stripe created for somebody else.
  lemma LinksAreOwned(s: State, step: Step, user: UserId)
    requires Sound(s) && user in Do(s, step).users && CustomerOf(Do(s, step), user).Some?
    ensures Known(Do(s, step), user, CustomerOf(Do(s, step), user).value)
  {
    var customer := CustomerOf(Do(s, step), user).value;
    if user in s.users && CustomerOf(s, user) == Some(customer) {
      StepKeepsLinks(s, step, user, customer);
    }
  }

  lemma {:induction false} SoundAlways(s: State, steps: seq<Step>)
    requires Sound(s)
    ensures Sound(Run(s, steps))
    decreases |steps|
  {
    if steps != [] {
      StepStaysSound(s, steps[0]);
      SoundAlways(Do(s, steps[0]), steps[1..]);
    }
  }

  lemma {:induction false} NeutralizedForGood(s: State, steps: seq<Step>, customer: CustomerId)
    requires Sound(s) && customer in s.neutralized
    ensures customer in Run(s, steps).neutralized
    decreases |steps|
  {
    if steps != [] {
      StepStaysSound(s, steps[0]);
      NeutralizedForGood(Do(s, steps[0]), steps[1..], customer);
    }
  }

  /**
   * A customer the checkout flow neutralizes is linked to no existing account,
   * neither then nor after any further run.
   */
  lemma NeverNeutralizesALinkedCustomer(past: seq<Step>, later: seq<Step>, customer: CustomerId, user: UserId)
    requires customer in Run(NOTHING, past).neutralized
    requires user in Run(Run(NOTHING, past), later).users
    ensures CustomerOf(Run(Run(NOTHING, past), later), user) != Some(customer)
  {
    SoundAlways(NOTHING, past);
    NeutralizedForGood(Run(NOTHING, past), later, customer);
    SoundAlways(Run(NOTHING, past), later);
  }

  /** While the user exists, a linked customer stays linked, whatever interleaves. */
  lemma {:induction false} LinkIsPermanent(s: State, steps: seq<Step>, user: UserId)
    requires Sound(s) && user in s.users && CustomerOf(s, user).Some?
    ensures user in Run(s, steps).gone || CustomerOf(Run(s, steps), user) == CustomerOf(s, user)
    decreases |steps|
  {
    if steps != [] {
      var next := Do(s, steps[0]);
      StepKeepsLinks(s, steps[0], user, CustomerOf(s, user).value);
      StepStaysSound(s, steps[0]);
      if user in next.gone {
        GoneForGood(next, steps[1..], user);
      } else {
        LinkIsPermanent(next, steps[1..], user);
      }
    }
  }

  lemma {:induction false} GoneForGood(s: State, steps: seq<Step>, user: UserId)
    requires user in s.gone
    ensures user in Run(s, steps).gone
    decreases |steps|
  {
    if steps != [] { GoneForGood(Do(s, steps[0]), steps[1..], user); }
  }

  // ----- Who gets a candidate -----

  /** A checkout of a user who has a customer never creates another one, whatever happens later. */
  lemma LinkedUserGetsNoCandidate(s: State, flow: FlowId, user: UserId, later: seq<Step>)
    requires user in s.users && CustomerOf(s, user).Some? && flow !in s.flows
    ensures
      var after := Run(Do(s, Begin(flow, user)), later);
      flow in after.flows && after.flows[flow].Finished?
  {
    FinishedForGood(Do(s, Begin(flow, user)), later, flow);
  }

  /**
   * A checkout nobody disturbs links the customer it creates, be it a new one
   * or the one an earlier checkout of the user kept for this retry.
   */
  lemma UndisturbedCheckoutLinks(s: State, flow: FlowId, user: UserId, customer: CustomerId)
    requires Sound(s) && user in s.users && CustomerOf(s, user).None? && flow !in s.flows
    requires customer in s.owner ==> s.owner[customer] == user
    ensures
      var after := Run(s, [Begin(flow, user), Create(flow, customer), Write(flow)]);
      && CustomerOf(after, user) == Some(customer) && flow in after.flows && after.flows[flow].Finished?
      && after.neutralized == s.neutralized && after.owner == s.owner[customer := user]
  {
    RunOfThree(s, Begin(flow, user), Create(flow, customer), Write(flow));
    var created := s.(owner := s.owner[customer := user], flows := s.flows[flow := Candidate(user, customer)]);
    FreshUserGetsACandidate(s, flow, user, customer);
    OwnCandidateIsUntaken(s, user, customer);
    UntakenCandidateIsLinked(created, flow);
  }

  lemma OwnCandidateIsUntaken(s: State, user: UserId, customer: CustomerId)
    requires Sound(s) && CustomerOf(s, user).None? && (customer in s.owner ==> s.owner[customer] == user)
    ensures forall other :: other in s.users ==> CustomerOf(s, other) != Some(customer)
  {
    forall other | other in s.users ensures CustomerOf(s, other) != Some(customer) {
      if CustomerOf(s, other).Some? { assert Known(s, other, CustomerOf(s, other).value); }
    }
  }

  lemma FreshUserGetsACandidate(s: State, flow: FlowId, user: UserId, customer: CustomerId)
    requires user in s.users && CustomerOf(s, user).None? && flow !in s.flows
    requires customer in s.owner ==> s.owner[customer] == user
    ensures Do(Do(s, Begin(flow, user)), Create(flow, customer))
            == s.(owner := s.owner[customer := user], flows := s.flows[flow := Candidate(user, customer)])
  {
    assert Do(s, Begin(flow, user)) == s.(flows := s.flows[flow := Unlinked(user)]);
  }

  lemma UntakenCandidateIsLinked(s: State, flow: FlowId)
    requires flow in s.flows && s.flows[flow].Candidate? && s.flows[flow].user in s.users
    requires CustomerOf(s, s.flows[flow].user).None?
    requires forall other :: other in s.users ==> CustomerOf(s, other) != Some(s.flows[flow].customer)
    ensures
      var Candidate(user, customer) := s.flows[flow];
      var after := Do(s, Write(flow));
      && CustomerOf(after, user) == Some(customer) && flow in after.flows && after.flows[flow].Finished?
      && after.neutralized == s.neutralized && after.owner == s.owner
  {
  }

  /** One whose user got another customer meanwhile keeps that one and neutralizes its own. */
  lemma OvertakenCheckoutNeutralizes(s: State, flow: FlowId)
    requires flow in s.flows && s.flows[flow].Candidate? && CustomerOf(s, s.flows[flow].user).Some?
    requires CustomerOf(s, s.flows[flow].user) != Some(s.flows[flow].customer)
    ensures
      var after := Do(Do(s, Write(flow)), Neutralize(flow));
      && after.users == s.users && after.flows[flow].Finished?
      && after.neutralized == s.neutralized + {s.flows[flow].customer}
  {
    var user := s.flows[flow].user;
    assert CanWrite(s, user, s.flows[flow].customer);
    assert Written(s, user, s.flows[flow].customer).users == s.users;
  }

  /** A write that reported an error may still land, and then links its customer. */
  lemma LateWriteLinks(s: State, user: UserId, customer: CustomerId)
    requires Sound(s) && (user, customer) in s.uncertain && user in s.users && CustomerOf(s, user).None?
    ensures
      var after := Do(s, Land(user, customer));
      CustomerOf(after, user) == Some(customer) && (user, customer) !in after.uncertain
  {
    assert !Taken(s, customer, user) by {
      forall other | other in s.users && CustomerOf(s, other) == Some(customer) ensures other == user {
        assert s.owner[customer] == other;
      }
    }
  }

  /** An abandoned checkout ends where it is. */
  lemma AbandonedCheckoutEnds(s: State, flow: FlowId)
    requires flow in s.flows
    ensures Do(s, Abandon(flow)) == s.(flows := s.flows[flow := Finished])
  {
  }

  /** A subscription update for a user without a customer links the one it carries. */
  lemma RefreshLinks(s: State, user: UserId, u: Update)
    requires user in s.users && CustomerOf(s, user).None? && OwnUpdate(s, user, Save(u)) && u.customer.Some?
    requires s.users[user].None? || Accepts(s.users[user].value, u)
    ensures CustomerOf(Do(s, Refresh(user, Save(u))), user) == u.customer
  {
  }

  // ----- Where candidates end up -----

  predicate HasCandidate(f: Flow) { !f.Unlinked? && !f.Finished? }

  // Linked, neutralized, or kept for the retry, which gets the same one again:
  // the user is still there and has no customer.
  predicate Accounted(s: State, user: UserId, customer: CustomerId) {
    || CustomerOf(s, user) == Some(customer)
    || customer in s.neutralized
    || (user in s.users && CustomerOf(s, user).None?)
  }

  // The account is deleted after the first look-up of a failed write found it.
  ghost predicate DeletedBetweenLookUps(s: State, life: seq<Step>, flow: FlowId, user: UserId) {
    exists i :: 0 <= i < |life| && LooksUpFirst(s, life, flow, i) && Delete(user) in life[i + 1..]
  }

  predicate LooksUpFirst(s: State, life: seq<Step>, flow: FlowId, i: nat)
    requires i < |life|
  {
    && life[i] == LookUpOwner(flow)
    && flow in Run(s, life[..i]).flows && Run(s, life[..i]).flows[flow].WriteFailed?
  }

  /**
   * However a checkout with a candidate goes on, unless it is abandoned it ends
   * with the candidate linked, neutralized or kept for the retry, except
   * exactly when the account is deleted between the two look-ups of a failed
   * write and no other checkout neutralized the same candidate.
   */
  lemma NoStrayCandidate(past: seq<Step>, life: seq<Step>, last: Step, flow: FlowId)
    requires flow in Run(NOTHING, past).flows && Run(NOTHING, past).flows[flow].Candidate?
    requires
      var now := Run(Run(NOTHING, past), life);
      flow in now.flows && !now.flows[flow].Finished? && Do(now, last).flows[flow].Finished? && last != Abandon(flow)
    ensures
      var s := Run(NOTHING, past);
      var now := Run(s, life);
      var Candidate(user, customer) := s.flows[flow];
      Accounted(Do(now, last), user, customer)
      <==> !(last == LookUpAccount(flow) && DeletedBetweenLookUps(s, life, flow, user) && customer !in now.neutralized)
  {
    var s := Run(NOTHING, past);
    var now := Run(s, life);
    SoundAlways(NOTHING, past);
    SoundAlways(s, life);
    StagesOnlyAdvance(s, life, flow);
    EndIsAccounted(now, last, flow);
    if now.flows[flow].OwnerExists? {
      GoneIfDeletedBetween(s, life, flow);
    }
  }

  lemma EndIsAccounted(s: State, step: Step, flow: FlowId)
    requires Sound(s) && flow in s.flows && HasCandidate(s.flows[flow])
    requires Do(s, step).flows[flow].Finished? && step != Abandon(flow)
    ensures
      var user, customer := s.flows[flow].user, s.flows[flow].customer;
      Accounted(Do(s, step), user, customer)
      <==> !(step == LookUpAccount(flow) && user !in s.users && customer !in s.neutralized)
    ensures step == LookUpAccount(flow) ==> s.flows[flow].OwnerExists?
  {
    assert FlowSound(s, s.flows[flow]);
  }

  function Stage(f: Flow): nat {
    match f
    case Unlinked(_) => 0
    case Candidate(_, _) => 1
    case WriteFailed(_, _) => 2
    case OwnerExists(_, _) => 3
    case Discarding(_, _) => 4
    case Finished => 5
  }

  predicate Advances(f: Flow, g: Flow) {
    Stage(f) <= Stage(g) && (HasCandidate(f) && HasCandidate(g) ==> f.user == g.user && f.customer == g.customer)
  }

  lemma {:induction false} StagesOnlyAdvance(s: State, steps: seq<Step>, flow: FlowId)
    requires flow in s.flows && HasCandidate(s.flows[flow])
    ensures flow in Run(s, steps).flows && Advances(s.flows[flow], Run(s, steps).flows[flow])
    decreases |steps|
  {
    if steps != [] {
      StageAdvances(s, steps[0], flow);
      var next := Do(s, steps[0]);
      if next.flows[flow].Finished? {
        FinishedForGood(next, steps[1..], flow);
      } else {
        StagesOnlyAdvance(next, steps[1..], flow);
      }
    }
  }

  lemma StageAdvances(s: State, step: Step, flow: FlowId)
    requires flow in s.flows && !s.flows[flow].Unlinked?
    ensures flow in Do(s, step).flows && Advances(s.flows[flow], Do(s, step).flows[flow])
  {
  }

  lemma {:induction false} FinishedForGood(s: State, steps: seq<Step>, flow: FlowId)
    requires flow in s.flows && s.flows[flow].Finished?
    ensures flow in Run(s, steps).flows && Run(s, steps).flows[flow].Finished?
    decreases |steps|
  {
    if steps != [] {
      StageAdvances(s, steps[0], flow);
      FinishedForGood(Do(s, steps[0]), steps[1..], flow);
    }
  }

  // A checkout waiting for its second look-up has lost its user exactly if the
  // account was deleted since the first one.
  lemma {:induction false} GoneIfDeletedBetween(s: State, life: seq<Step>, flow: FlowId)
    requires Sound(s) && flow in s.flows && (s.flows[flow].Candidate? || s.flows[flow].WriteFailed?)
    requires flow in Run(s, life).flows && Run(s, life).flows[flow].OwnerExists?
    ensures s.flows[flow].user !in Run(s, life).users <==> DeletedBetweenLookUps(s, life, flow, s.flows[flow].user)
    decreases |life|
  {
    var user, next, rest := s.flows[flow].user, Do(s, life[0]), life[1..];
    LooksUpNext(s, life[0], flow);
    StepStaysSound(s, life[0]);
    if next.flows[flow].OwnerExists? {
      StaysUnlessDeleted(next, rest, user);
      FirstLookUpIsOver(s, life, flow);
    } else if next.flows[flow].Candidate? || next.flows[flow].WriteFailed? {
      GoneIfDeletedBetween(next, rest, flow);
      LaterLookUp(s, life, flow, user);
    } else {
      NeverLooksUpAgain(next, rest, flow);
    }
  }

  lemma LooksUpNext(s: State, step: Step, flow: FlowId)
    requires Sound(s) && flow in s.flows && (s.flows[flow].Candidate? || s.flows[flow].WriteFailed?)
    ensures flow in Do(s, step).flows
    ensures
      var f, g := s.flows[flow], Do(s, step).flows[flow];
      && (HasCandidate(g) ==> g.user == f.user) && !g.Unlinked?
      && (g.OwnerExists? ==> f.WriteFailed? && step == LookUpOwner(flow) && g.user in Do(s, step).users)
      && (f.WriteFailed? && step == LookUpOwner(flow) ==> g.OwnerExists? || g.Discarding?)
  {
  }

  lemma NeverLooksUpAgain(s: State, steps: seq<Step>, flow: FlowId)
    requires flow in s.flows && (s.flows[flow].Discarding? || s.flows[flow].Finished?)
    ensures flow in Run(s, steps).flows && !Run(s, steps).flows[flow].OwnerExists?
  {
    if s.flows[flow].Finished? {
      FinishedForGood(s, steps, flow);
    } else {
      StagesOnlyAdvance(s, steps, flow);
    }
  }

  lemma FirstLookUpIsOver(s: State, life: seq<Step>, flow: FlowId)
    requires life != [] && flow in s.flows && s.flows[flow].WriteFailed? && life[0] == LookUpOwner(flow)
    requires Do(s, life[0]).flows[flow].OwnerExists?
    ensures DeletedBetweenLookUps(s, life, flow, s.flows[flow].user) <==> Delete(s.flows[flow].user) in life[1..]
  {
    assert LooksUpFirst(s, life, flow, 0);
    forall i | 0 < i < |life| ensures !LooksUpFirst(s, life, flow, i) {
      assert life[..i][1..] == life[1..][..i - 1];
      StagesOnlyAdvance(Do(s, life[0]), life[1..][..i - 1], flow);
    }
  }

  lemma LaterLookUp(s: State, life: seq<Step>, flow: FlowId, user: UserId)
    requires life != [] && flow in s.flows && !(life[0] == LookUpOwner(flow) && s.flows[flow].WriteFailed?)
    ensures DeletedBetweenLookUps(s, life, flow, user) <==> DeletedBetweenLookUps(Do(s, life[0]), life[1..], flow, user)
  {
    var next, rest := Do(s, life[0]), life[1..];
    forall i | 0 < i < |life| ensures LooksUpFirst(s, life, flow, i) <==> LooksUpFirst(next, rest, flow, i - 1) {
      assert life[..i][1..] == rest[..i - 1];
    }
    if DeletedBetweenLookUps(s, life, flow, user) {
      var i :| 0 <= i < |life| && LooksUpFirst(s, life, flow, i) && Delete(user) in life[i + 1..];
      assert i > 0 by { assert life[..0] == []; }
      assert rest[i - 1] == life[i] && rest[i..] == life[i + 1..];
    }
    if DeletedBetweenLookUps(next, rest, flow, user) {
      var i :| 0 <= i < |rest| && LooksUpFirst(next, rest, flow, i) && Delete(user) in rest[i + 1..];
      assert LooksUpFirst(s, life, flow, i + 1) && life[i + 1] == rest[i] && life[i + 2..] == rest[i + 1..];
    }
  }

  lemma {:induction false} StaysUnlessDeleted(s: State, steps: seq<Step>, user: UserId)
    requires Sound(s) && user in s.users
    ensures user in Run(s, steps).users <==> Delete(user) !in steps
    decreases |steps|
  {
    if steps != [] {
      var next := Do(s, steps[0]);
      StepStaysSound(s, steps[0]);
      assert steps == [steps[0]] + steps[1..];
      if steps[0] == Delete(user) {
        GoneForGood(next, steps[1..], user);
        SoundAlways(next, steps[1..]);
      } else {
        StaysUnlessDeleted(next, steps[1..], user);
      }
    }
  }

  // A run on which that happens.
  const CREATED: seq<Step> := [Register("ada"), Begin("checkout", "ada"), Create("checkout", "cus_1")]
  const FAILED: seq<Step> := [WriteErrors("checkout"), LookUpOwner("checkout"), Delete("ada")]

  const AFTER_CREATE := NOTHING.(
    users := map["ada" := None], owner := map["cus_1" := "ada"], flows := map["checkout" := Candidate("ada", "cus_1")])

  const AFTER_DELETE := AFTER_CREATE.(
    users := map[], gone := {"ada"}, flows := map["checkout" := OwnerExists("ada", "cus_1")],
    uncertain := {("ada", "cus_1")})

  /** The account goes between the two look-ups: the candidate is left over. */
  lemma StrayCandidateRun()
    ensures
      var now := Run(Run(NOTHING, CREATED), FAILED);
      var after := Do(now, LookUpAccount("checkout"));
      && after.flows["checkout"].Finished? && !Accounted(after, "ada", "cus_1")
      && DeletedBetweenLookUps(Run(NOTHING, CREATED), FAILED, "checkout", "ada")
  {
    IsCreated();
    IsDeleted();
    assert Do(AFTER_DELETE, LookUpAccount("checkout")).flows["checkout"] == Finished;
    NoStrayCandidate(CREATED, FAILED, LookUpAccount("checkout"), "checkout");
  }

  lemma IsCreated()
    ensures Run(NOTHING, CREATED) == AFTER_CREATE
  {
    var begun := NOTHING.(users := map["ada" := None], flows := map["checkout" := Unlinked("ada")]);
    assert Do(Do(NOTHING, Register("ada")), Begin("checkout", "ada")) == begun;
    assert Do(begun, Create("checkout", "cus_1")) == AFTER_CREATE;
    RunOfThree(NOTHING, Register("ada"), Begin("checkout", "ada"), Create("checkout", "cus_1"));
  }

  lemma IsDeleted()
    ensures Run(AFTER_CREATE, FAILED) == AFTER_DELETE
  {
    var failed := AFTER_CREATE.(
      flows := map["checkout" := WriteFailed("ada", "cus_1")], uncertain := {("ada", "cus_1")});
    assert Do(AFTER_CREATE, WriteErrors("checkout")) == failed;
    var found := failed.(flows := map["checkout" := OwnerExists("ada", "cus_1")]);
    assert Do(failed, LookUpOwner("checkout")) == found;
    RunOfThree(AFTER_CREATE, WriteErrors("checkout"), LookUpOwner("checkout"), Delete("ada"));
  }

  lemma RunOfThree(s: State, first: Step, second: Step, third: Step)
    ensures Run(s, [first, second, third]) == Do(Do(Do(s, first), second), third)
  {
    var next := Do(s, first);
    assert [first, second, third][1..] == [second, third];
    assert [second, third][1..] == [third];
    assert Run(Do(next, second), [third]) == Do(Do(next, second), third) by { assert [third][1..] == []; }
  }
}
