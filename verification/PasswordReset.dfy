/**
 * Password resets: the tokens a user may hold, and the queue that delivers
 * them. The token transactions interleave statement by statement under row
 * locks; the queue hands requests to workers under a five-minute lease.
 */
module PasswordReset {
  import opened Wrappers

  type UserId = string
  type RequestId = string
  type TransactionId = string
  type Time = int

  // ----- Tokens -----

  datatype Token = Token(user: UserId, expires: Time, used: Option<Time>)

  // A token is derived from its request alone, so it is named by the request:
  // every delivery of a request carries the same token.
  type Tokens = map<RequestId, Token>

  predicate Usable(tokens: Tokens, request: RequestId, now: Time) {
    request in tokens && tokens[request].used.None? && tokens[request].expires > now
  }

  function AfterIssue(tokens: Tokens, request: RequestId, user: UserId, expires: Time): Tokens {
    if request in tokens then tokens else tokens[request := Token(user, expires, None)]
  }

  // Spends the token and every other unused token of its user.
  function AfterReset(tokens: Tokens, request: RequestId, now: Time): Tokens
    requires request in tokens
  {
    map r | r in tokens ::
      if tokens[r].user == tokens[request].user && tokens[r].used.None? then tokens[r].(used := Some(now))
      else tokens[r]
  }

  class TokenTable {
    var tokens: Tokens

    constructor ()
      ensures tokens == map[]
    {
      tokens := map[];
    }

    // Refuses a token that was spent, has expired, or is another user's. The
    // clock is the database's, read inside the transaction.
    method Create(request: RequestId, user: UserId, expires: Time, clock: Time) returns (valid: bool)
      modifies this
      ensures tokens == AfterIssue(old(tokens), request, user, expires)
      ensures valid <==>
              request !in old(tokens) ||
              var token := old(tokens)[request];
              token.used.None? && clock < token.expires && token.user == user
    {
      if request !in tokens {
        tokens := tokens[request := Token(user, expires, None)];
        return true;
      }
      valid := tokens[request].used.None? && tokens[request].expires > clock && tokens[request].user == user;
    }

    method Reset(request: RequestId, now: Time) returns (accepted: bool)
      modifies this
      ensures accepted <==>
              request in old(tokens) && old(tokens)[request].used.None? && now < old(tokens)[request].expires
      ensures tokens == if accepted then AfterReset(old(tokens), request, now) else old(tokens)
    {
      if request !in tokens || tokens[request].used.Some? || tokens[request].expires <= now {
        return false;
      }
      ghost var before := tokens;
      var user := tokens[request].user;
      tokens := tokens[request := tokens[request].(used := Some(now))];
      var spent := map r | r in tokens && tokens[r].user == user && tokens[r].used.None? ::
            tokens[r].(used := Some(now));
      tokens := tokens + spent;
      assert tokens == AfterReset(before, request, now);
      accepted := true;
    }
  }

  datatype Transaction =
    | Issuing(request: RequestId, user: UserId, expires: Time)   // holds the user row
    | Marked(request: RequestId, user: UserId, now: Time)        // holds the token row
    | Owning(request: RequestId, user: UserId, now: Time)        // holds the token row and the user row

  // A committed reset: the token it spent, and when.
  datatype Spending = Spending(request: RequestId, at: Time)

  datatype State = State(tokens: Tokens, open: map<TransactionId, Transaction>, resets: seq<Spending>)

  datatype Step =
    | BeginIssue(id: TransactionId, request: RequestId, user: UserId, expires: Time)
    | FinishIssue(id: TransactionId)
    | Mark(id: TransactionId, request: RequestId, now: Time)
    | LockOwner(id: TransactionId)
    | FinishReset(id: TransactionId)
    | Abort(id: TransactionId)

  predicate HoldsUser(tx: Transaction, user: UserId) { !tx.Marked? && tx.user == user }

  predicate HoldsToken(tx: Transaction, request: RequestId) { !tx.Issuing? && tx.request == request }

  predicate UserLocked(s: State, user: UserId) { exists id :: id in s.open && HoldsUser(s.open[id], user) }

  predicate TokenLocked(s: State, request: RequestId, except: TransactionId) {
    exists id :: id in s.open && id != except && HoldsToken(s.open[id], request)
  }

  // The last statement of a reset writes every unused token of the user, so it
  // waits while another transaction holds one of them.
  predicate CanFinishReset(s: State, id: TransactionId) {
    && id in s.open && s.open[id].Owning?
    && s.open[id].request in s.tokens
    && forall r :: r in s.tokens && s.tokens[r].user == s.open[id].user && s.tokens[r].used.None? ==>
                     !TokenLocked(s, r, id)
  }

  function Closed(s: State, id: TransactionId): State { s.(open := s.open - {id}) }

  // A statement that has to wait for a lock, or finds no row, is a step that
  // leaves the state unchanged.
  function Do(s: State, step: Step): State {
    match step
    case BeginIssue(id, request, user, expires) =>
      if id in s.open || UserLocked(s, user) then s else s.(open := s.open[id := Issuing(request, user, expires)])
    case FinishIssue(id) =>
      if id in s.open && s.open[id].Issuing?
      then Closed(s, id).(tokens := AfterIssue(s.tokens, s.open[id].request, s.open[id].user, s.open[id].expires))
      else s
    case Mark(id, request, now) =>
      if id in s.open || !Usable(s.tokens, request, now) || TokenLocked(s, request, id) then s
      else s.(open := s.open[id := Marked(request, s.tokens[request].user, now)])
    case LockOwner(id) =>
      if id in s.open && s.open[id].Marked? && !UserLocked(s, s.open[id].user)
      then s.(open := s.open[id := Owning(s.open[id].request, s.open[id].user, s.open[id].now)])
      else s
    case FinishReset(id) =>
      if CanFinishReset(s, id)
      then Closed(s, id).(tokens := AfterReset(s.tokens, s.open[id].request, s.open[id].now),
                          resets := s.resets + [Spending(s.open[id].request, s.open[id].now)])
      else s
    case Abort(id) => Closed(s, id)
  }

  function Run(s: State, steps: seq<Step>): State
    decreases |steps|
  {
    if steps == [] then s else Run(Do(s, steps[0]), steps[1..])
  }

  const NOTHING := State(map[], map[], [])

  predicate Spent(s: State, request: RequestId) { request in s.tokens && s.tokens[request].used.Some? }

  ghost predicate Sound(s: State) { OpenSound(s) && LocksSound(s) && LogSound(s) }

  // No two transactions hold the same user's row.
  ghost predicate LocksSound(s: State) {
    forall id, other, user ::
      id in s.open && other in s.open && id != other && HoldsUser(s.open[id], user) ==> !HoldsUser(s.open[other], user)
  }

  // A token somebody is spending is still unspent, was not yet expired, and is
  // theirs alone.
  ghost predicate OpenSound(s: State) {
    && (forall id :: id in s.open && !s.open[id].Issuing? ==> BeingSpent(s, s.open[id]))
    && (forall id, other ::
          id in s.open && other in s.open && id != other && !s.open[id].Issuing? && !s.open[other].Issuing? ==>
            s.open[id].request != s.open[other].request)
  }

  predicate BeingSpent(s: State, tx: Transaction)
    requires !tx.Issuing?
  {
    && tx.request in s.tokens
    && var token := s.tokens[tx.request];
    && token.user == tx.user && token.used.None? && tx.now < token.expires
  }

  // Every recorded reset spent a token of its own, before that expired.
  ghost predicate LogSound(s: State) {
    && (forall i :: 0 <= i < |s.resets| ==> SpentInTime(s, s.resets[i]))
    && (forall i, j :: 0 <= i < j < |s.resets| ==> s.resets[i].request != s.resets[j].request)
  }

  predicate SpentInTime(s: State, reset: Spending) {
    && reset.request in s.tokens
    && s.tokens[reset.request].used == Some(reset.at) && reset.at < s.tokens[reset.request].expires
  }

  predicate NoneOf(resets: seq<Spending>, request: RequestId) {
    forall i :: 0 <= i < |resets| ==> resets[i].request != request
  }

  lemma StepStaysSound(s: State, step: Step)
    requires Sound(s)
    ensures Sound(Do(s, step))
  {
    LocksStaySound(s, step);
    TokensStaySound(s, step);
  }

  lemma TokensStaySound(s: State, step: Step)
    requires Sound(s)
    ensures OpenSound(Do(s, step)) && LogSound(Do(s, step))
  {
    match step
    case FinishReset(id) =>
      if CanFinishReset(s, id) {
        ResetStaysSound(s, id);
        ResetIsLogged(s, id);
      }
    case Mark(id, request, now) => MarkStaysSound(s, id, request, now);
    case FinishIssue(id) => IssueStaysSound(s, id);
    case _ => assert Do(s, step).tokens == s.tokens && Do(s, step).resets == s.resets;
  }

  lemma LocksStaySound(s: State, step: Step)
    requires LocksSound(s)
    ensures LocksSound(Do(s, step))
  {
    var after := Do(s, step);
    forall id, other, user | id in after.open && other in after.open && id != other && HoldsUser(after.open[id], user)
      ensures !HoldsUser(after.open[other], user)
    {
      if other in s.open && HoldsUser(s.open[other], user) { assert UserLocked(s, user); }
      if id in s.open && HoldsUser(s.open[id], user) { assert UserLocked(s, user); }
    }
  }

  lemma IssueStaysSound(s: State, id: TransactionId)
    requires Sound(s)
    ensures OpenSound(Do(s, FinishIssue(id))) && LogSound(Do(s, FinishIssue(id)))
  {
    var after := Do(s, FinishIssue(id));
    assert forall r :: r in s.tokens ==> r in after.tokens && after.tokens[r] == s.tokens[r];
    assert forall other :: other in after.open ==> other in s.open && after.open[other] == s.open[other];
  }

  lemma MarkStaysSound(s: State, id: TransactionId, request: RequestId, now: Time)
    requires Sound(s)
    ensures OpenSound(Do(s, Mark(id, request, now))) && LogSound(Do(s, Mark(id, request, now)))
  {
    var after := Do(s, Mark(id, request, now));
    forall other | other in s.open && other != id && !s.open[other].Issuing? && after != s
      ensures s.open[other].request != request
    {
      assert HoldsToken(s.open[other], s.open[other].request);
    }
  }

  lemma ResetStaysSound(s: State, id: TransactionId)
    requires Sound(s) && CanFinishReset(s, id)
    ensures OpenSound(Do(s, FinishReset(id)))
  {
    var after := Do(s, FinishReset(id));
    forall other | other in after.open && !after.open[other].Issuing? ensures BeingSpent(after, after.open[other]) {
      assert BeingSpent(s, s.open[other]) && HoldsToken(s.open[other], s.open[other].request);
    }
  }

  lemma ResetIsLogged(s: State, id: TransactionId)
    requires Sound(s) && CanFinishReset(s, id)
    ensures LogSound(Do(s, FinishReset(id)))
  {
    var after := Do(s, FinishReset(id));
    assert BeingSpent(s, s.open[id]);
    assert SpentInTime(after, Spending(s.open[id].request, s.open[id].now));
    forall i | 0 <= i < |s.resets|
      ensures SpentInTime(after, s.resets[i]) && s.resets[i].request != s.open[id].request
    {
      assert SpentInTime(s, s.resets[i]);
    }
  }

  lemma {:induction false} SoundAlways(s: State, steps: seq<Step>)
    requires Sound(s)
    ensures Sound(Run(s, steps))
    decreases |steps|
  {
    if steps != [] {
      StepStaysSound(s, steps[0]);
      SoundAlways(Do(s, steps[0]), steps[1..]);
    }
  }

  /** Over any run, no token is accepted twice. */
  lemma TokenSucceedsAtMostOnce(steps: seq<Step>, i: nat, j: nat)
    requires i < j < |Run(NOTHING, steps).resets|
    ensures Run(NOTHING, steps).resets[i].request != Run(NOTHING, steps).resets[j].request
  {
    SoundAlways(NOTHING, steps);
  }

  /** Every reset that ever succeeded spent its token before that expired. */
  lemma NoExpiredTokenIsAccepted(steps: seq<Step>, i: nat)
    requires i < |Run(NOTHING, steps).resets|
    ensures
      var s := Run(NOTHING, steps);
      var reset := s.resets[i];
      && reset.request in s.tokens && s.tokens[reset.request].used == Some(reset.at)
      && reset.at < s.tokens[reset.request].expires
  {
    SoundAlways(NOTHING, steps);
    assert SpentInTime(Run(NOTHING, steps), Run(NOTHING, steps).resets[i]);
  }

  /** A token issued and reset without disturbance is spent, and nobody else's token is. */
  lemma IssuedTokenCanBeSpent(s: State, id: TransactionId, request: RequestId, user: UserId, expires: Time, now: Time)
    requires s.open == map[] && request !in s.tokens && now < expires
    ensures
      var issued := Do(Do(s, BeginIssue(id, request, user, expires)), FinishIssue(id));
      && issued.tokens == s.tokens[request := Token(user, expires, None)]
      && var after := Do(Do(Do(issued, Mark(id, request, now)), LockOwner(id)), FinishReset(id));
      && after.resets == s.resets + [Spending(request, now)]
      && request in after.tokens && after.tokens[request] == Token(user, expires, Some(now))
      && forall r :: r in s.tokens && s.tokens[r].user != user ==> r in after.tokens && after.tokens[r] == s.tokens[r]
  {
    var issued := s.(tokens := s.tokens[request := Token(user, expires, None)]);
    IsIssued(s, id, request, user, expires);
    var marked := issued.(open := map[id := Marked(request, user, now)]);
    assert Do(issued, Mark(id, request, now)) == marked;
    var owning := issued.(open := map[id := Owning(request, user, now)]);
    assert Do(marked, LockOwner(id)) == owning;
    assert CanFinishReset(owning, id);
  }

  /** An aborted transaction lets go of its rows and changes no token. */
  lemma AbortLetsGo(s: State, id: TransactionId)
    ensures Do(s, Abort(id)) == s.(open := s.open - {id})
  {
  }

  lemma IsIssued(s: State, id: TransactionId, request: RequestId, user: UserId, expires: Time)
    requires s.open == map[] && request !in s.tokens
    ensures Do(Do(s, BeginIssue(id, request, user, expires)), FinishIssue(id))
            == s.(tokens := s.tokens[request := Token(user, expires, None)])
  {
    assert Do(s, BeginIssue(id, request, user, expires)) == s.(open := map[id := Issuing(request, user, expires)]);
  }

  /**
   * Nothing revives a token: its row stays, its owner and expiry never move,
   * and once spent it stays spent as it was and is never accepted again,
   * however often its request is delivered.
   */
  lemma {:induction false} TokensOnlyDie(s: State, steps: seq<Step>, request: RequestId)
    requires Sound(s) && request in s.tokens
    ensures
      var later := Run(s, steps);
      && request in later.tokens
      && later.tokens[request].user == s.tokens[request].user
      && later.tokens[request].expires == s.tokens[request].expires
      && s.resets <= later.resets
      && (Spent(s, request) ==>
            later.tokens[request] == s.tokens[request] && NoneOf(later.resets[|s.resets|..], request))
    decreases |steps|
  {
    if steps != [] {
      var next := Do(s, steps[0]);
      StepStaysSound(s, steps[0]);
      TokenOnlyDies(s, steps[0], request);
      TokensOnlyDie(next, steps[1..], request);
      var later := Run(s, steps);
      assert later.resets[|s.resets|..] == next.resets[|s.resets|..] + later.resets[|next.resets|..];
    }
  }

  lemma TokenOnlyDies(s: State, step: Step, request: RequestId)
    requires Sound(s) && request in s.tokens
    ensures
      var next := Do(s, step);
      && request in next.tokens
      && next.tokens[request].user == s.tokens[request].user
      && next.tokens[request].expires == s.tokens[request].expires
      && (next.resets == s.resets || (|next.resets| == |s.resets| + 1 && s.resets <= next.resets))
      && (Spent(s, request) ==> next.tokens[request] == s.tokens[request] && NoneOf(next.resets[|s.resets|..], request))
  {
    if step.FinishReset? && CanFinishReset(s, step.id) {
      assert Do(s, step).resets[|s.resets|..] == [Spending(s.open[step.id].request, s.open[step.id].now)];
    }
  }

  /** A successful reset kills, for good, every token its user holds at that moment. */
  lemma ResetKillsEveryToken(past: seq<Step>, id: TransactionId, later: seq<Step>, request: RequestId)
    requires CanFinishReset(Run(NOTHING, past), id)
    requires request in Run(NOTHING, past).tokens
             && Run(NOTHING, past).tokens[request].user == Run(NOTHING, past).open[id].user
    ensures DeadFrom(Do(Run(NOTHING, past), FinishReset(id)), later, request)
  {
    SoundAlways(NOTHING, past);
    ResetKills(Run(NOTHING, past), id, later, request);
  }

  /**
   * From the moment a reset holds its user's row until it ends, no token of
   * that user is issued or changes: the ones it will spend are all there are.
   */
  lemma {:induction false} OwnedTokensStandStill(s: State, steps: seq<Step>, id: TransactionId, request: RequestId)
    requires Sound(s) && id in s.open && s.open[id].Owning?
    requires forall i :: 0 <= i < |steps| ==> steps[i] != FinishReset(id) && steps[i] != Abort(id)
    ensures
      var later, user := Run(s, steps), s.open[id].user;
      && id in later.open && later.open[id] == s.open[id]
      && (request in s.tokens && s.tokens[request].user == user ==>
            request in later.tokens && later.tokens[request] == s.tokens[request])
      && (request in later.tokens && later.tokens[request].user == user ==>
            request in s.tokens && later.tokens[request] == s.tokens[request])
    decreases |steps|
  {
    if steps != [] {
      StepStaysSound(s, steps[0]);
      OwnedTokensStay(s, steps[0], id, request);
      OwnedTokensStandStill(Do(s, steps[0]), steps[1..], id, request);
    }
  }

  lemma OwnedTokensStay(s: State, step: Step, id: TransactionId, request: RequestId)
    requires Sound(s) && id in s.open && s.open[id].Owning? && step != FinishReset(id) && step != Abort(id)
    ensures
      var next, user := Do(s, step), s.open[id].user;
      && id in next.open && next.open[id] == s.open[id]
      && (request in s.tokens ==>
            request in next.tokens && next.tokens[request].user == s.tokens[request].user
            && (s.tokens[request].user == user ==> next.tokens[request] == s.tokens[request]))
      && (request in next.tokens && next.tokens[request].user == user ==>
            request in s.tokens && next.tokens[request] == s.tokens[request])
  {
    assert HoldsUser(s.open[id], s.open[id].user);
    if step.FinishReset? && CanFinishReset(s, step.id) {
      assert HoldsUser(s.open[step.id], s.open[step.id].user) && BeingSpent(s, s.open[step.id]);
    }
    if step.FinishIssue? && step.id in s.open && s.open[step.id].Issuing? {
      assert HoldsUser(s.open[step.id], s.open[step.id].user);
    }
  }

  // The token is spent, and no later reset is accepted for it.
  ghost predicate DeadFrom(s: State, later: seq<Step>, request: RequestId) {
    && Spent(Run(s, later), request)
    && s.resets <= Run(s, later).resets
    && NoneOf(Run(s, later).resets[|s.resets|..], request)
  }

  lemma ResetKills(s: State, id: TransactionId, later: seq<Step>, request: RequestId)
    requires Sound(s) && CanFinishReset(s, id) && request in s.tokens && s.tokens[request].user == s.open[id].user
    ensures DeadFrom(Do(s, FinishReset(id)), later, request)
  {
    var done := Do(s, FinishReset(id));
    StepStaysSound(s, FinishReset(id));
    assert Spent(done, request);
    TokensOnlyDie(done, later, request);
  }

  // ----- The delivery queue -----

  const SECOND: Time := 1_000_000_000
  const MINUTE: Time := 60 * SECOND
  const LEASE: Time := 5 * MINUTE
  const DAY: Time := 24 * 60 * MINUTE
  const MAX_ATTEMPTS: nat := 5

  datatype Request = Request(email: string, created: Time, available: Time, claimed: Option<Time>, attempts: nat,
                             processed: Option<Time>)

  predicate Claimable(r: Request, now: Time) {
    && r.processed.None?
    && r.available <= now
    && (r.claimed.None? || r.claimed.value < now - LEASE)
  }

  function Claimed(r: Request, now: Time): Request {
    r.(claimed := Some(now), attempts := r.attempts + 1)
  }

  function Completed(r: Request, now: Time): Request {
    if r.processed.Some? then r else r.(processed := Some(now), claimed := None)
  }

  // The fifth failed attempt gives the request up.
  function Retried(r: Request, available: Time, clock: Time): Request {
    if r.processed.Some? then r
    else r.(claimed := None, available := available,
            processed := if r.attempts >= MAX_ATTEMPTS then Some(clock) else None)
  }

  // Without the requests finished more than a day ago.
  function Purged(requests: map<RequestId, Request>, now: Time): map<RequestId, Request> {
    map r | r in requests && !(requests[r].processed.Some? && requests[r].processed.value < now - DAY) :: requests[r]
  }

  predicate Sooner(a: Request, b: Request) {
    a.available < b.available || (a.available == b.available && a.created <= b.created)
  }

  class ResetQueue {
    var requests: map<RequestId, Request>

    constructor ()
      ensures requests == map[]
    {
      requests := map[];
    }

    // A queued request waits unclaimed, due at once and with all its attempts.
    method Enqueue(id: RequestId, email: string, now: Time)
      requires id !in requests
      modifies this
      ensures requests == old(requests)[id := Request(email, now, now, None, 0, None)]
    {
      requests := requests[id := Request(email, now, now, None, 0, None)];
    }

    // Takes the claimable request that has waited longest, skipping the rows
    // other workers hold.
    method Claim(now: Time, locked: set<RequestId>) returns (taken: Option<RequestId>)
      modifies this
      // Claimable: not done, due, and not under a lease of five minutes.
      ensures taken.None? ==>
                && requests == old(requests)
                && forall id :: id in requests && id !in locked ==>
                                  || requests[id].processed.Some? || now < requests[id].available
                                  || (requests[id].claimed.Some? && now - 300_000_000_000 <= requests[id].claimed.value)
      ensures taken.Some? ==>
                && taken.value in old(requests) && taken.value !in locked
                && var r := old(requests)[taken.value];
                && r.processed.None? && r.available <= now
                && (r.claimed.Some? ==> r.claimed.value < now - 300_000_000_000)
                && requests == old(requests)[taken.value := r.(claimed := Some(now), attempts := r.attempts + 1)]
                && forall id :: id in old(requests) && id !in locked && Claimable(old(requests)[id], now) ==>
                                  var other := old(requests)[id];
                                  || r.available < other.available
                                  || (r.available == other.available && r.created <= other.created)
    {
      taken := None;
      var remaining := requests.Keys - locked;
      while remaining != {}
        invariant remaining <= requests.Keys - locked && requests == old(requests)
        invariant taken.Some? ==>
                    taken.value in requests && taken.value !in locked && Claimable(requests[taken.value], now)
        invariant forall id :: id in requests && id !in locked && id !in remaining && Claimable(requests[id], now) ==>
                    taken.Some? && Sooner(requests[taken.value], requests[id])
      {
        var id :| id in remaining;
        if Claimable(requests[id], now) && (taken.None? || !Sooner(requests[taken.value], requests[id])) {
          taken := Some(id);
        }
        remaining := remaining - {id};
      }
      if taken.Some? {
        requests := requests[taken.value := Claimed(requests[taken.value], now)];
      }
    }

    // Marks the request and drops what was finished more than a day ago.
    method Complete(id: RequestId, now: Time)
      modifies this
      ensures requests == Purged(if id in old(requests) then old(requests)[id := Completed(old(requests)[id], now)]
                                 else old(requests), now)
      ensures id in old(requests) && old(requests)[id].processed.None? ==>
                id in requests && requests[id] == old(requests)[id].(processed := Some(now), claimed := None)
      ensures forall r :: r in old(requests) && r != id ==>
                            var done := old(requests)[r].processed;
                            if done.Some? && done.value < now - 86_400_000_000_000 then r !in requests
                            else r in requests && requests[r] == old(requests)[r]
      ensures requests.Keys <= old(requests).Keys
    {
      if id in requests && requests[id].processed.None? {
        requests := requests[id := requests[id].(processed := Some(now), claimed := None)];
      }
      requests := Purged(requests, now);
    }

    method Retry(id: RequestId, available: Time, clock: Time)
      modifies this
      ensures requests == if id in old(requests) then old(requests)[id := Retried(old(requests)[id], available, clock)]
                          else old(requests)
      // The fifth failed attempt gives the request up; a finished one stays so.
      ensures id in old(requests) ==>
                requests[id] ==
                  var r := old(requests)[id];
                  if r.processed.Some? then r
                  else r.(claimed := None, available := available,
                          processed := if r.attempts < 5 then None else Some(clock))
    {
      if id in requests && requests[id].processed.None? {
        var request := requests[id];
        var processed := None;
        if request.attempts >= MAX_ATTEMPTS {
          processed := Some(clock);
        }
        requests := requests[id := request.(claimed := None, available := available, processed := processed)];
      }
    }
  }

  // What happens to one request, from any number of workers, in order.
  datatype Event = Claim(now: Time) | Complete(now: Time) | Retry(available: Time, clock: Time)

  function AfterEvent(r: Request, e: Event): Request {
    match e
    case Claim(now) => if Claimable(r, now) then Claimed(r, now) else r
    case Complete(now) => Completed(r, now)
    case Retry(available, clock) => Retried(r, available, clock)
  }

  function Claims(r: Request, events: seq<Event>): nat
    decreases |events|
  {
    if events == [] then 0
    else (if events[0].Claim? && Claimable(r, events[0].now) then 1 else 0)
         + Claims(AfterEvent(r, events[0]), events[1..])
  }

  // Claims taken over from a worker whose lease had run out.
  function Takeovers(r: Request, events: seq<Event>): nat
    decreases |events|
  {
    if events == [] then 0
    else
      (if events[0].Claim? && Claimable(r, events[0].now) && r.claimed.Some? then 1 else 0)
      + Takeovers(AfterEvent(r, events[0]), events[1..])
  }

  // A request that waits unclaimed has attempts left.
  predicate HasAttemptsLeft(r: Request) {
    r.processed.None? && r.claimed.None? ==> r.attempts < MAX_ATTEMPTS
  }

  lemma {:induction false} ClaimsLeft(r: Request, events: seq<Event>)
    requires HasAttemptsLeft(r)
    ensures Claims(r, events) <= Takeovers(r, events)
            + (if r.attempts < MAX_ATTEMPTS then MAX_ATTEMPTS - r.attempts else 0)
    decreases |events|
  {
    if events != [] { ClaimsLeft(AfterEvent(r, events[0]), events[1..]); }
  }

  /**
   * However many workers stall or report late, a queued request is claimed at
   * most five times plus once per lease that ran out.
   */
  lemma ClaimsAreBounded(email: string, queued: Time, events: seq<Event>)
    ensures var r := Request(email, queued, queued, None, 0, None);
            Claims(r, events) <= 5 + Takeovers(r, events)
  {
    ClaimsLeft(Request(email, queued, queued, None, 0, None), events);
  }

  // Every claim finds the request unclaimed, or its lease not yet over.
  ghost predicate LeasesHold(r: Request, events: seq<Event>)
    decreases |events|
  {
    events == [] ||
    (&& (events[0].Claim? && r.claimed.Some? ==> events[0].now - 300_000_000_000 <= r.claimed.value)
     && LeasesHold(AfterEvent(r, events[0]), events[1..]))
  }

  lemma {:induction false} NoTakeovers(r: Request, events: seq<Event>)
    requires LeasesHold(r, events)
    ensures Takeovers(r, events) == 0
    decreases |events|
  {
    if events != [] { NoTakeovers(AfterEvent(r, events[0]), events[1..]); }
  }

  /** As long as every worker reports within its five minutes, a request is claimed at most five times. */
  lemma PromptWorkersClaimFiveTimes(email: string, queued: Time, events: seq<Event>)
    requires LeasesHold(Request(email, queued, queued, None, 0, None), events)
    ensures Claims(Request(email, queued, queued, None, 0, None), events) <= 5
  {
    var r := Request(email, queued, queued, None, 0, None);
    ClaimsLeft(r, events);
    NoTakeovers(r, events);
  }

  datatype Issue = Issued | Refused | IssueFailed

  function RetryDelay(attempts: nat): Time {
    if attempts * MINUTE > DAY / 24 then DAY / 24 else attempts * MINUTE
  }

  // What other workers and callers do to the queue.
  datatype Turn =
    | Queue(id: RequestId, email: string, now: Time)
    | ClaimNext(now: Time, locked: set<RequestId>)
    | CompleteOne(id: RequestId, now: Time)
    | RetryOne(id: RequestId, available: Time, clock: Time)

  function AfterEvents(r: Request, events: seq<Event>): Request {
    if events == [] then r else AfterEvent(AfterEvents(r, events[..|events| - 1]), events[|events| - 1])
  }

  // The row of a request that met these events, or its absence once it is
  // processed and a day old.
  ghost predicate Met(before: Request, events: seq<Event>, id: RequestId, requests: map<RequestId, Request>) {
    var after := AfterEvents(before, events);
    if id in requests then requests[id] == after else after.processed.Some?
  }

  lemma MetMore(before: Request, events: seq<Event>, e: Event)
    ensures AfterEvents(before, events + [e]) == AfterEvent(AfterEvents(before, events), e)
  {
    assert (events + [e])[..|events|] == events;
  }

  // A turn means at most one event for a request; a claim may take another.
  function Adding(met: seq<Event>, turn: Turn, watched: RequestId): set<seq<Event>> {
    match turn
    case Queue(_, _, _) => {met}
    case ClaimNext(now, _) => {met, met + [Event.Claim(now)]}
    case CompleteOne(id, now) => {if id == watched then met + [Event.Complete(now)] else met}
    case RetryOne(id, available, clock) => {if id == watched then met + [Event.Retry(available, clock)] else met}
  }

  // One turn, as the events it means for the watched request, whose id is
  // never given to another.
  method TakeTurn(queue: ResetQueue, turn: Turn, watched: RequestId, ghost before: Request, ghost met: seq<Event>)
    returns (ghost events: seq<Event>)
    requires Met(before, met, watched, queue.requests)
    modifies queue
    ensures Met(before, events, watched, queue.requests) && events in Adding(met, turn, watched)
  {
    events := met;
    match turn {
      case Queue(id, email, now) =>
        if id !in queue.requests && id != watched {
          queue.Enqueue(id, email, now);
        }
      case ClaimNext(now, locked) =>
        var taken := queue.Claim(now, locked);
        if taken == Some(watched) {
          events := met + [Event.Claim(now)];
          MetMore(before, met, Event.Claim(now));
        }
      case CompleteOne(id, now) =>
        queue.Complete(id, now);
        if id == watched {
          events := met + [Event.Complete(now)];
          MetMore(before, met, Event.Complete(now));
        }
      case RetryOne(id, available, clock) =>
        queue.Retry(id, available, clock);
        if id == watched {
          events := met + [Event.Retry(available, clock)];
          MetMore(before, met, Event.Retry(available, clock));
        }
    }
  }

  // Any number of turns by others.
  method TakeTurns(queue: ResetQueue, turns: seq<Turn>, watched: RequestId, ghost before: Request)
    returns (ghost events: seq<Event>)
    requires Met(before, [], watched, queue.requests)
    modifies queue
    ensures Met(before, events, watched, queue.requests) && (turns == [] ==> events == [])
  {
    events := [];
    var i := 0;
    while i < |turns|
      invariant 0 <= i <= |turns| && Met(before, events, watched, queue.requests) && (i == 0 ==> events == [])
    {
      events := TakeTurn(queue, turns[i], watched, before, events);
      i := i + 1;
    }
  }

  // How a worker closes its turn: mailed or refused requests are done, others
  // go back with a delay.
  function Closing(id: RequestId, now: Time, clock: Time, attempts: nat, issue: Issue, delivered: bool): Turn {
    if issue.Refused? || (issue.Issued? && delivered) then CompleteOne(id, now)
    else RetryOne(id, now + RetryDelay(attempts), clock)
  }

  function EventOf(turn: Turn): Event
    requires turn.CompleteOne? || turn.RetryOne?
  {
    if turn.CompleteOne? then Event.Complete(turn.now) else Event.Retry(turn.available, turn.clock)
  }

  /**
   * One turn of the worker. Other workers may hold rows and act on any request
   * before it is done, this one included when its lease runs out; the token
   * transaction, the mail delivery and the closing statement may all fail.
   * Whatever the others did, the claimed request ends up processed or back in
   * the queue with its delay, or as the others left it if the closing fails:
   * claimed, when they left it alone, until its lease runs out.
   */
  method ProcessOne(queue: ResetQueue, now: Time, clock: Time, locked: set<RequestId>, others: seq<Turn>, issue: Issue,
                    delivered: bool, closes: bool)
    returns (taken: Option<RequestId>, ghost events: seq<Event>)
    modifies queue
    ensures taken.None? ==>
              && queue.requests == old(queue.requests)
              && forall id :: id in queue.requests && id !in locked ==> !Claimable(queue.requests[id], now)
    ensures taken.Some? ==>
              && taken.value in old(queue.requests) && taken.value !in locked
              && var found := old(queue.requests)[taken.value];
              var attempt := found.attempts + 1;
              var claimed := found.(claimed := Some(now), attempts := attempt);
              // A minute for every attempt so far, but no more than an hour.
              var retry := now + 60_000_000_000 * (if attempt < 60 then attempt else 60);
              var done := issue.Refused? || (issue.Issued? && delivered);
              var closing := if done then Event.Complete(now) else Event.Retry(retry, clock);
              && found.processed.None? && found.available <= now
              && Met(claimed, if closes then events + [closing] else events, taken.value, queue.requests)
              && (closes && taken.value in queue.requests && queue.requests[taken.value].processed.None? ==>
                    && !done && queue.requests[taken.value].claimed.None?
                    && queue.requests[taken.value].available == retry)
              && (others == [] ==> events == [])
  {
    taken := queue.Claim(now, locked);
    events := [];
    if taken.Some? {
      var id := taken.value;
      ghost var claimed := queue.requests[id];
      var attempts := queue.requests[id].attempts;
      events := TakeTurns(queue, others, id, claimed);
      if closes {
        Close(queue, Closing(id, now, clock, attempts, issue, delivered), id, claimed, events);
      }
    }
  }

  // The closing statement is one more event of the request.
  method Close(queue: ResetQueue, closing: Turn, id: RequestId, ghost before: Request, ghost met: seq<Event>)
    requires (closing.CompleteOne? || closing.RetryOne?) && closing.id == id && Met(before, met, id, queue.requests)
    modifies queue
    ensures Met(before, met + [EventOf(closing)], id, queue.requests)
    ensures id in queue.requests && queue.requests[id].processed.None? ==>
              closing.RetryOne? && queue.requests[id].claimed.None? && queue.requests[id].available == closing.available
  {
    MetMore(before, met, EventOf(closing));
    ghost var all := TakeTurn(queue, closing, id, before, met);
  }
}
