/**
 * Deleting an account commits a cleanup job for its Stripe customer together
 * with the local delete, and only then talks to Stripe. Deletes, cleanup runs
 * and crashes interleave freely; Stripe calls and job writes may fail, also
 * after they took effect.
 */
module CleanupOutbox {
  import opened Wrappers

  type UserId = string
  type Email = string
  type CustomerId = string
  type ProcessId = string

  datatype Account = Account(email: Email, customer: Option<CustomerId>, subscription: Option<string>,
                             status: Option<string>)

  predicate TerminalStatus(status: Option<string>) {
    status == Some("canceled") || status == Some("incomplete_expired")
  }

  // An account that ever met Stripe may go only when its subscription ended,
  // or when an operator verified that its customer never had one.
  predicate Deletable(account: Account, verified: bool) {
    (account.customer.None? && account.subscription.None? && account.status.None?)
    || TerminalStatus(account.status)
    || (verified && account.customer.Some? && account.subscription.None? && account.status.None?)
  }

  datatype Process =
    | Deleting(email: Email)            // found no job for the email
    | Starting(customer: CustomerId)    // about to look for the job
    | Calling(customer: CustomerId)     // found it, about to call Stripe
    | CallFailed(customer: CustomerId)
    | Unrecorded(customer: CustomerId)  // the job was gone when recording the failure
    | Called(customer: CustomerId)      // Stripe reported success
    | Unremoved(customer: CustomerId)   // removing the job reported an error
    | Done(customer: CustomerId)        // returned no error
    | Failed

  datatype State = State(
    accounts: map<UserId, Account>,
    jobs: map<Email, CustomerId>,
    orphaned: set<CustomerId>,          // customers of deleted accounts
    neutralized: set<CustomerId>,
    processes: map<ProcessId, Process>)

  datatype Step =
    | Register(user: UserId, account: Account)
    | Relink(user: UserId, account: Account)
    | BeginDelete(id: ProcessId, email: Email)
    | CommitDelete(id: ProcessId, user: UserId, verified: bool)
    | BeginCleanup(id: ProcessId, customer: CustomerId)
    | FindJob(id: ProcessId)
    | CallStripe(id: ProcessId, takesEffect: bool, reported: bool)
    | RecordFailure(id: ProcessId)
    | Recheck(id: ProcessId)
    | RemoveJob(id: ProcessId, takesEffect: bool, reported: bool)
    | Crash(id: ProcessId)

  predicate Linked(s: State, customer: CustomerId) {
    exists user :: user in s.accounts && s.accounts[user].customer == Some(customer)
  }

  function At(s: State, id: ProcessId, process: Process): State { s.(processes := s.processes[id := process]) }

  function WithoutJob(s: State, customer: CustomerId): State {
    s.(jobs := map email | email in s.jobs && s.jobs[email] != customer :: s.jobs[email])
  }

  // The delete transaction, on the account as it is now. The upsert overwrites
  // a job the email already has; a customer that has a job under another email
  // violates the unique index.
  predicate CanCommit(s: State, id: ProcessId, user: UserId, verified: bool) {
    && id in s.processes && s.processes[id].Deleting?
    && user in s.accounts && s.accounts[user].email == s.processes[id].email
    && Deletable(s.accounts[user], verified)
    && (s.accounts[user].customer.Some? ==>
          forall email :: email in s.jobs && s.jobs[email] == s.accounts[user].customer.value ==>
                            email == s.accounts[user].email)
  }

  function Committed(s: State, id: ProcessId, user: UserId): State
    requires user in s.accounts
  {
    var account := s.accounts[user];
    var deleted := s.(accounts := s.accounts - {user});
    match account.customer
    case None => deleted.(processes := s.processes - {id})
    case Some(customer) =>
      var queued := deleted.(jobs := s.jobs[account.email := customer], orphaned := s.orphaned + {customer});
      At(queued, id, Starting(customer))
  }

  // A step that is not possible in a state leaves it unchanged.
  function Do(s: State, step: Step): State {
    match step
    case Register(user, account) =>
      if user in s.accounts || account.customer.Some? then s else s.(accounts := s.accounts[user := account])
    case Relink(user, account) =>
      // Billing columns change while the account exists; a customer belongs to
      // one account and is never handed to another after a delete.
      if user in s.accounts && account.email == s.accounts[user].email
         && (account.customer.Some? && account.customer != s.accounts[user].customer ==>
               !Linked(s, account.customer.value) && account.customer.value !in s.orphaned)
      then s.(accounts := s.accounts[user := account]) else s
    case BeginDelete(id, email) =>
      if id in s.processes || email in s.jobs then s else At(s, id, Deleting(email))
    case CommitDelete(id, user, verified) =>
      if CanCommit(s, id, user, verified) then Committed(s, id, user) else s
    case BeginCleanup(id, customer) =>
      if id in s.processes then s else At(s, id, Starting(customer))
    case FindJob(id) =>
      if id in s.processes && s.processes[id].Starting?
      then At(s, id, if s.processes[id].customer in s.jobs.Values then Calling(s.processes[id].customer) else Failed)
      else s
    case CallStripe(id, takesEffect, reported) =>
      if id in s.processes && s.processes[id].Calling? && (reported ==> takesEffect) then
        var customer := s.processes[id].customer;
        var called := if takesEffect then s.(neutralized := s.neutralized + {customer}) else s;
        At(called, id, if reported then Called(customer) else CallFailed(customer))
      else s
    case RecordFailure(id) =>
      if id in s.processes && s.processes[id].CallFailed?
      then At(s, id, if s.processes[id].customer in s.jobs.Values then Failed else Unrecorded(s.processes[id].customer))
      else s
    case Recheck(id) =>
      if id in s.processes && (s.processes[id].Unrecorded? || s.processes[id].Unremoved?)
      then At(s, id, if s.processes[id].customer in s.jobs.Values then Failed else Done(s.processes[id].customer))
      else s
    case RemoveJob(id, takesEffect, reported) =>
      if id in s.processes && s.processes[id].Called? && (reported ==> takesEffect) then
        var customer := s.processes[id].customer;
        var removed := if takesEffect then WithoutJob(s, customer) else s;
        At(removed, id, if reported then Done(customer) else Unremoved(customer))
      else s
    case Crash(id) =>
      s.(processes := s.processes - {id})
  }

  function Run(s: State, steps: seq<Step>): State
    decreases |steps|
  {
    if steps == [] then s else Run(Do(s, steps[0]), steps[1..])
  }

  const NOTHING := State(map[], map[], {}, {}, map[])

  // The promise: a deleted account's customer is neutralized or still queued.
  ghost predicate Covered(s: State) {
    forall customer :: customer in s.orphaned ==> customer in s.neutralized || customer in s.jobs.Values
  }

  ghost predicate Sound(s: State) {
    && Covered(s)
    && (forall email :: email in s.jobs ==> s.jobs[email] in s.orphaned)
    && (forall email, other :: email in s.jobs && other in s.jobs && s.jobs[email] == s.jobs[other] ==> email == other)
    && (forall user :: user in s.accounts && s.accounts[user].customer.Some? ==>
          s.accounts[user].customer.value !in s.orphaned)
    && (forall user, other ::
          user in s.accounts && other in s.accounts && user != other && s.accounts[user].customer.Some? ==>
            s.accounts[user].customer != s.accounts[other].customer)
    && (forall id :: id in s.processes ==> ProcessSound(s, s.processes[id]))
  }

  predicate ProcessSound(s: State, process: Process) {
    match process
    case Calling(customer) => customer in s.orphaned
    case CallFailed(customer) => customer in s.orphaned
    case Unrecorded(customer) => customer in s.orphaned
    case Called(customer) => customer in s.orphaned && customer in s.neutralized
    case Unremoved(customer) => customer in s.orphaned && customer in s.neutralized
    case Done(customer) => customer in s.orphaned && customer in s.neutralized && customer !in s.jobs.Values
    case _ => true
  }

  // The check a delete made before its transaction still holds at the commit,
  // or the job it would overwrite is no longer needed.
  predicate Careful(s: State, step: Step) {
    step.CommitDelete? && CanCommit(s, step.id, step.user, step.verified) ==>
      var account := s.accounts[step.user];
      account.customer.None? || account.email !in s.jobs || s.jobs[account.email] in s.neutralized
  }

  /** A delete keeps the promise exactly when it does not overwrite a job another delete still needs. */
  lemma CommitKeepsPromiseIffCareful(s: State, id: ProcessId, user: UserId, verified: bool)
    requires Sound(s) && CanCommit(s, id, user, verified)
    ensures Covered(Do(s, CommitDelete(id, user, verified))) <==> Careful(s, CommitDelete(id, user, verified))
  {
    var account := s.accounts[user];
    if account.customer.Some? {
      CommitJobs(s, id, user);
      if account.email in s.jobs {
        var lost := s.jobs[account.email];
        assert lost in s.orphaned;
      }
    }
  }

  // The jobs after a delete: the email's job is now the account's customer,
  // and every other email keeps its own.
  lemma CommitJobs(s: State, id: ProcessId, user: UserId)
    requires Sound(s) && user in s.accounts && s.accounts[user].customer.Some?
    ensures s.accounts[user].customer.value in Committed(s, id, user).jobs.Values
    ensures forall customer :: customer in s.jobs.Values && !Overwrites(s, user, customer) ==>
                                 customer in Committed(s, id, user).jobs.Values
  {
    var after := Committed(s, id, user).jobs;
    assert s.accounts[user].email in after;
    forall customer | customer in s.jobs.Values && !Overwrites(s, user, customer) ensures customer in after.Values {
      var email :| email in s.jobs && s.jobs[email] == customer;
      assert email in after && after[email] == customer;
    }
  }

  // The customer's job is the one under the user's email.
  predicate Overwrites(s: State, user: UserId, customer: CustomerId)
    requires user in s.accounts
  {
    s.accounts[user].email in s.jobs && s.jobs[s.accounts[user].email] == customer
  }

  lemma StepStaysSound(s: State, step: Step)
    requires Sound(s) && Careful(s, step)
    ensures Sound(Do(s, step))
  {
    match step
    case CommitDelete(id, user, verified) =>
      if CanCommit(s, id, user, verified) { CommitStaysSound(s, id, user, verified); }
    case RemoveJob(id, takesEffect, reported) =>
      RemovalStaysSound(s, step);
    case Register(_, _) => AccountsStaySound(s, step);
    case Relink(_, _) => AccountsStaySound(s, step);
    case _ => ProcessStaysSound(s, step);
  }

  lemma AccountsStaySound(s: State, step: Step)
    requires Sound(s) && (step.Register? || step.Relink?)
    ensures Sound(Do(s, step))
  {
    assert Do(s, step) == s.(accounts := Do(s, step).accounts);
    forall id | id in s.processes ensures ProcessSound(Do(s, step), s.processes[id]) {
      assert ProcessSound(s, s.processes[id]);
    }
  }

  lemma ProcessStaysSound(s: State, step: Step)
    requires Sound(s) && !step.Register? && !step.Relink? && !step.CommitDelete? && !step.RemoveJob?
    ensures Sound(Do(s, step))
  {
    var after := Do(s, step);
    assert after.jobs == s.jobs && after.orphaned == s.orphaned && after.accounts == s.accounts
           && s.neutralized <= after.neutralized;
    forall id | id in after.processes ensures ProcessSound(after, after.processes[id]) {
      ProcessAdvances(s, step, id);
    }
  }

  lemma ProcessAdvances(s: State, step: Step, id: ProcessId)
    requires Sound(s) && !step.Register? && !step.Relink? && !step.CommitDelete? && !step.RemoveJob?
    requires id in Do(s, step).processes
    ensures ProcessSound(Do(s, step), Do(s, step).processes[id])
  {
    if id in s.processes {
      assert ProcessSound(s, s.processes[id]);
    }
  }

  lemma CommitStaysSound(s: State, id: ProcessId, user: UserId, verified: bool)
    requires Sound(s) && CanCommit(s, id, user, verified) && Careful(s, CommitDelete(id, user, verified))
    ensures Sound(Committed(s, id, user))
  {
    CommitKeepsPromiseIffCareful(s, id, user, verified);
    var after := Committed(s, id, user);
    var account := s.accounts[user];
    assert after.jobs.Values <= s.jobs.Values + (if account.customer.Some? then {account.customer.value} else {});
    forall other | other in after.processes ensures ProcessSound(after, after.processes[other]) {
      if other in s.processes { assert ProcessSound(s, s.processes[other]); }
    }
  }

  lemma RemovalStaysSound(s: State, step: Step)
    requires Sound(s) && step.RemoveJob?
    ensures Sound(Do(s, step))
  {
    var after := Do(s, step);
    if step.id !in s.processes || !s.processes[step.id].Called? { return; }
    RemovalKeepsOthers(s, s.processes[step.id].customer);
    assert ProcessSound(s, s.processes[step.id]);
    forall other | other in after.processes ensures ProcessSound(after, after.processes[other]) {
      if other in s.processes { assert ProcessSound(s, s.processes[other]); }
    }
  }

  lemma RemovalKeepsOthers(s: State, customer: CustomerId)
    ensures customer !in WithoutJob(s, customer).jobs.Values
    ensures forall other :: other in s.jobs.Values && other != customer ==> other in WithoutJob(s, customer).jobs.Values
    ensures WithoutJob(s, customer).jobs.Values <= s.jobs.Values
  {
    forall other | other in s.jobs.Values && other != customer ensures other in WithoutJob(s, customer).jobs.Values {
      var email :| email in s.jobs && s.jobs[email] == other;
      assert WithoutJob(s, customer).jobs[email] == other;
    }
  }

  ghost predicate AllCareful(s: State, steps: seq<Step>)
    decreases |steps|
  {
    steps == [] || (Careful(s, steps[0]) && AllCareful(Do(s, steps[0]), steps[1..]))
  }

  // Deletes of one email do not overlap: one begins only when no other stands
  // between its check and its commit.
  ghost predicate OneDeletePerEmail(s: State, steps: seq<Step>)
    decreases |steps|
  {
    steps == [] ||
    (&& (steps[0].BeginDelete? ==> forall id :: id in s.processes ==> s.processes[id] != Deleting(steps[0].email))
     && OneDeletePerEmail(Do(s, steps[0]), steps[1..]))
  }

  ghost predicate ChecksStillHold(s: State) {
    && (forall id :: id in s.processes && s.processes[id].Deleting? ==> s.processes[id].email !in s.jobs)
    && (forall id, other :: id in s.processes && other in s.processes && id != other && s.processes[id].Deleting? ==>
          s.processes[id] != s.processes[other])
  }

  /** Deletes that do not overlap are careful: the check each made still holds when it commits. */
  lemma {:induction false} SeparateDeletesAreCareful(s: State, steps: seq<Step>)
    requires ChecksStillHold(s) && OneDeletePerEmail(s, steps)
    ensures AllCareful(s, steps)
    decreases |steps|
  {
    if steps != [] {
      ChecksKeepHolding(s, steps[0]);
      SeparateDeletesAreCareful(Do(s, steps[0]), steps[1..]);
    }
  }

  lemma ChecksKeepHolding(s: State, step: Step)
    requires ChecksStillHold(s)
    requires step.BeginDelete? ==> forall id :: id in s.processes ==> s.processes[id] != Deleting(step.email)
    ensures ChecksStillHold(Do(s, step))
  {
    var after := Do(s, step);
    assert forall id :: id in after.processes && after.processes[id].Deleting? && !step.BeginDelete? ==>
                          id in s.processes && after.processes[id] == s.processes[id];
  }

  ghost predicate CoveredThroughout(s: State, steps: seq<Step>)
    decreases |steps|
  {
    Covered(s) && (steps != [] ==> CoveredThroughout(Do(s, steps[0]), steps[1..]))
  }

  /**
   * Crashes included, a run drops no deleted account's customer exactly if each
   * of its deletes overwrites no job that is still needed.
   */
  lemma {:induction false} OutboxNeverDropsACustomer(s: State, steps: seq<Step>)
    requires Sound(s)
    ensures CoveredThroughout(s, steps) <==> AllCareful(s, steps)
    ensures AllCareful(s, steps) ==> Sound(Run(s, steps))
    decreases |steps|
  {
    if steps != [] {
      var next, rest := Do(s, steps[0]), steps[1..];
      if Careful(s, steps[0]) {
        StepStaysSound(s, steps[0]);
        OutboxNeverDropsACustomer(next, rest);
      } else {
        CommitKeepsPromiseIffCareful(s, steps[0].id, steps[0].user, steps[0].verified);
        assert !CoveredThroughout(next, rest);
      }
    }
  }

  // ----- Whom a delete lets go -----

  /**
   * Over every run, an account goes only by a delete's commit, and only if it
   * never met Stripe, or its subscription has ended, or an operator verified
   * that its customer never had one.
   */
  lemma OnlyEndedAccountsAreDeleted(s: State, steps: seq<Step>, i: nat, user: UserId)
    requires i < |steps| && user in Run(s, steps[..i]).accounts && user !in Run(s, steps[..i + 1]).accounts
    ensures
      var account := Run(s, steps[..i]).accounts[user];
      && steps[i].CommitDelete? && steps[i].user == user
      && (|| (account.customer.None? && account.subscription.None? && account.status.None?)
          || account.status == Some("canceled") || account.status == Some("incomplete_expired")
          || (steps[i].verified && account.customer.Some? && account.subscription.None? && account.status.None?))
  {
    RunOneMore(s, steps, i);
  }

  lemma RunOneMore(s: State, steps: seq<Step>, i: nat)
    requires i < |steps|
    ensures Run(s, steps[..i + 1]) == Do(Run(s, steps[..i]), steps[i])
  {
    assert steps[..i + 1] == steps[..i] + [steps[i]];
    RunSplits(s, steps[..i], [steps[i]]);
    assert Run(Run(s, steps[..i]), [steps[i]]) == Do(Run(s, steps[..i]), steps[i]) by { assert [steps[i]][1..] == []; }
  }

  /**
   * Such a delete is not refused while its email has no job: it removes the
   * account and queues its customer.
   */
  lemma EndedAccountIsDeleted(s: State, id: ProcessId, user: UserId, verified: bool)
    requires Sound(s) && id !in s.processes && user in s.accounts && s.accounts[user].email !in s.jobs
    requires
      var account := s.accounts[user];
      || (account.customer.None? && account.subscription.None? && account.status.None?)
      || account.status == Some("canceled") || account.status == Some("incomplete_expired")
      || (verified && account.customer.Some? && account.subscription.None? && account.status.None?)
    ensures
      var account := s.accounts[user];
      var after := Do(Do(s, BeginDelete(id, account.email)), CommitDelete(id, user, verified));
      && after.accounts == s.accounts - {user}
      && (account.customer.Some? ==>
            && after.jobs == s.jobs[account.email := account.customer.value]
            && id in after.processes && after.processes[id] == Starting(account.customer.value))
  {
    var begun := Do(s, BeginDelete(id, s.accounts[user].email));
    assert begun == At(s, id, Deleting(s.accounts[user].email));
    assert CanCommit(begun, id, user, verified);
  }

  /** A cleanup that Stripe answers ends well: the customer is neutralized and its job is gone. */
  lemma AnsweredCleanupIsDone(s: State, id: ProcessId)
    requires id in s.processes && s.processes[id].Starting? && s.processes[id].customer in s.jobs.Values
    ensures
      var customer := s.processes[id].customer;
      var after := Do(Do(Do(s, FindJob(id)), CallStripe(id, true, true)), RemoveJob(id, true, true));
      && after.processes[id] == Done(customer) && after.neutralized == s.neutralized + {customer}
      && customer !in after.jobs.Values
      && forall other :: other in s.jobs.Values && other != customer ==> other in after.jobs.Values
  {
    var customer := s.processes[id].customer;
    var called := Do(Do(s, FindJob(id)), CallStripe(id, true, true));
    assert called.jobs == s.jobs && called.processes[id] == Called(customer);
    RemovalKeepsOthers(called, customer);
  }

  /** An operator can start a cleanup at any time, for any customer. */
  lemma CleanupBegins(s: State, id: ProcessId, customer: CustomerId)
    requires id !in s.processes
    ensures
      var after := Do(s, BeginCleanup(id, customer));
      after == s.(processes := s.processes[id := Starting(customer)])
      && Do(after, FindJob(id)).processes[id] == if customer in s.jobs.Values then Calling(customer) else Failed
  {
  }

  /**
   * An error is forgiven when somebody else finished the job meanwhile: after
   * a failed call, or when the removal took effect but reported an error.
   */
  lemma FinishedElsewhereIsDone(s: State, id: ProcessId)
    requires id in s.processes && (s.processes[id].CallFailed? || s.processes[id].Called?)
    ensures
      var customer := s.processes[id].customer;
      var unlessPending := if customer in s.jobs.Values then Failed else Done(customer);
      if s.processes[id].CallFailed?
      then Do(Do(s, RecordFailure(id)), Recheck(id)).processes[id] == unlessPending
      else Do(Do(s, RemoveJob(id, true, false)), Recheck(id)).processes[id] == Done(customer)
           && Do(Do(s, RemoveJob(id, false, false)), Recheck(id)).processes[id] == unlessPending
  {
    if s.processes[id].Called? {
      RemovalKeepsOthers(s, s.processes[id].customer);
    }
  }

  /** A crash loses the process and nothing else. */
  lemma CrashLosesTheProcessOnly(s: State, id: ProcessId)
    ensures Do(s, Crash(id)) == s.(processes := s.processes - {id})
  {
  }

  /** One that Stripe refuses leaves the job for another attempt. */
  lemma FailedCleanupKeepsItsJob(s: State, id: ProcessId, takesEffect: bool)
    requires id in s.processes && s.processes[id].Starting? && s.processes[id].customer in s.jobs.Values
    ensures
      var after := Do(Do(Do(s, FindJob(id)), CallStripe(id, takesEffect, false)), RecordFailure(id));
      after.processes[id] == Failed && after.jobs == s.jobs
  {
    var customer := s.processes[id].customer;
    var called := Do(Do(s, FindJob(id)), CallStripe(id, takesEffect, false));
    assert called.jobs == s.jobs && called.processes[id] == CallFailed(customer);
  }

  // ----- When Stripe is called -----

  // Jobs and calls concern customers of deleted accounts only. Unlike the
  // promise, this needs no care: a job that is overwritten is merely gone.
  ghost predicate Grounded(s: State) {
    && (forall email :: email in s.jobs ==> s.jobs[email] in s.orphaned)
    && (forall user :: user in s.accounts && s.accounts[user].customer.Some? ==>
          s.accounts[user].customer.value !in s.orphaned)
    && (forall user, other ::
          user in s.accounts && other in s.accounts && user != other && s.accounts[user].customer.Some? ==>
            s.accounts[user].customer != s.accounts[other].customer)
    && (forall id :: id in s.processes && s.processes[id].Calling? ==> s.processes[id].customer in s.orphaned)
  }

  lemma StepStaysGrounded(s: State, step: Step)
    requires Grounded(s)
    ensures Grounded(Do(s, step))
  {
    var after := Do(s, step);
    if step.CommitDelete? && CanCommit(s, step.id, step.user, step.verified) {
      CommitStaysGrounded(s, step.id, step.user, step.verified);
    } else if step.Register? || step.Relink? {
      AccountsStayGrounded(s, step);
    } else {
      assert s.orphaned == after.orphaned && s.accounts == after.accounts;
      assert forall email :: email in after.jobs ==> email in s.jobs && after.jobs[email] == s.jobs[email];
    }
  }

  lemma AccountsStayGrounded(s: State, step: Step)
    requires Grounded(s) && (step.Register? || step.Relink?)
    ensures Grounded(Do(s, step))
  {
    assert Do(s, step) == s.(accounts := Do(s, step).accounts);
  }

  lemma CommitStaysGrounded(s: State, id: ProcessId, user: UserId, verified: bool)
    requires Grounded(s) && CanCommit(s, id, user, verified)
    ensures Grounded(Committed(s, id, user))
  {
  }

  lemma {:induction false} GroundedAlways(s: State, steps: seq<Step>)
    requires Grounded(s)
    ensures Grounded(Run(s, steps))
    decreases |steps|
  {
    if steps != [] {
      StepStaysGrounded(s, steps[0]);
      GroundedAlways(Do(s, steps[0]), steps[1..]);
    }
  }

  /**
   * Over every run, overlapping deletes and crashes included, Stripe is called
   * only for customers whose account delete has committed.
   */
  lemma StripeIsCalledAfterCommit(steps: seq<Step>, id: ProcessId, takesEffect: bool, reported: bool)
    requires Do(Run(NOTHING, steps), CallStripe(id, takesEffect, reported)) != Run(NOTHING, steps)
    ensures
      var s := Run(NOTHING, steps);
      s.processes[id].customer in s.orphaned && !Linked(s, s.processes[id].customer)
  {
    GroundedAlways(NOTHING, steps);
  }

  /** A cleanup that returned no error left its customer neutralized and without a job, for good. */
  lemma NilResultIsFinal(past: seq<Step>, later: seq<Step>, id: ProcessId)
    requires AllCareful(NOTHING, past) && AllCareful(Run(NOTHING, past), later)
    requires id in Run(NOTHING, past).processes && Run(NOTHING, past).processes[id].Done?
    ensures
      var customer := Run(NOTHING, past).processes[id].customer;
      var s := Run(Run(NOTHING, past), later);
      customer in s.neutralized && customer !in s.jobs.Values
  {
    OutboxNeverDropsACustomer(NOTHING, past);
    SettledStaysSettled(Run(NOTHING, past), later, Run(NOTHING, past).processes[id].customer);
  }

  lemma {:induction false} SettledStaysSettled(s: State, steps: seq<Step>, customer: CustomerId)
    requires Sound(s) && AllCareful(s, steps)
    requires customer in s.orphaned && customer in s.neutralized && customer !in s.jobs.Values
    ensures customer in Run(s, steps).neutralized && customer !in Run(s, steps).jobs.Values
    decreases |steps|
  {
    if steps != [] {
      StepStaysSound(s, steps[0]);
      SettledStep(s, steps[0], customer);
      SettledStaysSettled(Do(s, steps[0]), steps[1..], customer);
    }
  }

  lemma SettledStep(s: State, step: Step, customer: CustomerId)
    requires Sound(s) && customer in s.orphaned && customer in s.neutralized && customer !in s.jobs.Values
    ensures customer in Do(s, step).orphaned && customer in Do(s, step).neutralized
            && customer !in Do(s, step).jobs.Values
  {
  }

  // Two deletes of one email have both found no job.
  function Checks(prior: Account): seq<Step> {
    [Register("old", prior.(customer := None)), Relink("old", prior),
     BeginDelete("first", prior.email), BeginDelete("second", prior.email)]
  }

  function BothChecked(prior: Account): State {
    State(map["old" := prior], map[], {}, {}, map["first" := Deleting(prior.email), "second" := Deleting(prior.email)])
  }

  // The first commits, the address registers again with a new customer, and
  // the second delete overwrites the first one's job.
  function Overlap(rejoined: Account): seq<Step> {
    [CommitDelete("first", "old", false), Register("new", rejoined.(customer := None)), Relink("new", rejoined),
     CommitDelete("second", "new", false)]
  }

  /** Without that care the promise fails: overlapping deletes lose the first customer. */
  lemma OverlappingDeletesLoseACustomer(prior: Account, rejoined: Account)
    requires prior.email == rejoined.email && prior.customer.Some? && rejoined.customer.Some?
             && prior.customer != rejoined.customer
    requires Deletable(prior, false) && Deletable(rejoined, false)
    ensures !Covered(Run(NOTHING, Checks(prior) + Overlap(rejoined)))
  {
    BothCheck(prior);
    SecondOverwrites(prior, rejoined);
    RunSplits(NOTHING, Checks(prior), Overlap(rejoined));
  }

  lemma BothCheck(prior: Account)
    ensures Run(NOTHING, Checks(prior)) == BothChecked(prior)
  {
    var s1 := NOTHING.(accounts := map["old" := prior.(customer := None)]);
    var s2 := NOTHING.(accounts := map["old" := prior]);
    var s3 := At(s2, "first", Deleting(prior.email));
    var s4 := At(s3, "second", Deleting(prior.email));
    assert s4 == BothChecked(prior);
    RunInSteps(NOTHING, Checks(prior), [s1, s2, s3, s4]);
  }

  lemma SecondOverwrites(prior: Account, rejoined: Account)
    requires prior.email == rejoined.email && prior.customer.Some? && rejoined.customer.Some?
             && prior.customer != rejoined.customer
    requires Deletable(prior, false) && Deletable(rejoined, false)
    ensures !Covered(Run(BothChecked(prior), Overlap(rejoined)))
  {
    var s := BothChecked(prior);
    var first, second := prior.customer.value, rejoined.customer.value;
    assert CanCommit(s, "first", "old", false);
    var s1 := Committed(s, "first", "old");
    assert s1.accounts == map[] && s1.jobs == map[prior.email := first];
    var s2 := s1.(accounts := map["new" := rejoined.(customer := None)]);
    assert Do(s1, Register("new", rejoined.(customer := None))) == s2;
    var s3 := s1.(accounts := map["new" := rejoined]);
    assert Do(s2, Relink("new", rejoined)) == s3;
    assert CanCommit(s3, "second", "new", false);
    var s4 := Committed(s3, "second", "new");
    assert s4.jobs == map[prior.email := second] && first in s4.orphaned;
    RunInSteps(s, Overlap(rejoined), [s1, s2, s3, s4]);
  }

  lemma {:induction false} RunSplits(s: State, first: seq<Step>, second: seq<Step>)
    ensures Run(s, first + second) == Run(Run(s, first), second)
    decreases |first|
  {
    if first == [] {
      assert first + second == second;
    } else {
      assert (first + second)[1..] == first[1..] + second;
      RunSplits(Do(s, first[0]), first[1..], second);
    }
  }

  lemma {:induction false} RunInSteps(s: State, steps: seq<Step>, states: seq<State>)
    requires |states| == |steps| > 0 && states[0] == Do(s, steps[0])
    requires forall i :: 1 <= i < |steps| ==> states[i] == Do(states[i - 1], steps[i])
    ensures Run(s, steps) == states[|states| - 1]
    decreases |steps|
  {
    if |steps| == 1 {
      assert Run(states[0], steps[1..]) == states[0];
    } else {
      RunInSteps(states[0], steps[1..], states[1..]);
    }
  }
}
