/**
 * Creating documents under a saved-document limit. A create is four statements
 * under a lock on the owner's row; creates and archives of one owner interleave.
 */
module DocumentQuota {
  import opened Wrappers

  type DocumentId = string
  type CreateId = string

  // Where a create is: begun, holding the owner row, having counted room, or
  // with its document inserted but not committed.
  datatype Create = Begun | Holding | Counted | Inserted(document: DocumentId) | Saved(document: DocumentId) | Refused

  datatype State = State(
    live: set<DocumentId>,        // committed, not archived
    archived: set<DocumentId>,
    creates: map<CreateId, Create>,
    lock: Option<CreateId>)       // who holds the owner's user row

  datatype Step =
    | Begin(id: CreateId)
    | Lock(id: CreateId)
    | CountRoom(id: CreateId)
    | Insert(id: CreateId, document: DocumentId)
    | Commit(id: CreateId)
    | Abort(id: CreateId)
    | Archive(document: DocumentId)

  predicate Holds(c: Create) { c.Holding? || c.Counted? || c.Inserted? }

  function At(s: State, id: CreateId, c: Create): State { s.(creates := s.creates[id := c]) }

  // The end of a transaction, which gives the owner row back if it held it.
  function Ended(s: State, id: CreateId, c: Option<Create>): State {
    s.(creates := if c.Some? then s.creates[id := c.value] else s.creates - {id},
       lock := if s.lock == Some(id) then None else s.lock)
  }

  // A statement that waits for the lock, or is out of turn, changes nothing.
  function Do(s: State, step: Step, limit: nat): State {
    match step
    case Begin(id) => if id in s.creates then s else At(s, id, Begun)
    case Lock(id) =>
      if id in s.creates && s.creates[id].Begun? && s.lock.None? then At(s, id, Holding).(lock := Some(id)) else s
    case CountRoom(id) =>
      if id in s.creates && s.creates[id].Holding?
      then if |s.live| >= limit then Ended(s, id, Some(Refused)) else At(s, id, Counted)
      else s
    case Insert(id, document) =>
      // A public id somebody already has ends the transaction; the caller
      // begins again with another one.
      if id in s.creates && s.creates[id].Counted?
      then if document in s.live || document in s.archived then Ended(s, id, None) else At(s, id, Inserted(document))
      else s
    case Commit(id) =>
      if id in s.creates && s.creates[id].Inserted?
      then Ended(s, id, Some(Saved(s.creates[id].document))).(live := s.live + {s.creates[id].document})
      else s
    case Abort(id) => Ended(s, id, None)
    case Archive(document) =>
      if document in s.live then s.(live := s.live - {document}, archived := s.archived + {document}) else s
  }

  function Run(s: State, steps: seq<Step>, limit: nat): State
    decreases |steps|
  {
    if steps == [] then s else Run(Do(s, steps[0], limit), steps[1..], limit)
  }

  function Max(a: nat, b: nat): nat { if a <= b then b else a }

  // Only the holder of the owner row has counted, and there is room for its
  // document until it commits.
  ghost predicate Sound(s: State, limit: nat) {
    && (forall id :: id in s.creates && Holds(s.creates[id]) ==> s.lock == Some(id))
    && (s.lock.Some? && s.lock.value in s.creates ==>
          var holder := s.creates[s.lock.value];
          holder.Counted? || holder.Inserted? ==> |s.live| < limit)
  }

  lemma StepKeepsQuota(s: State, step: Step, limit: nat)
    requires Sound(s, limit)
    ensures Sound(Do(s, step, limit), limit)
    ensures |Do(s, step, limit).live| <= Max(limit, |s.live|)
  {
    if step.Archive? && step.document in s.live {
      assert |s.live - {step.document}| == |s.live| - 1;
    }
  }

  /**
   * A create nobody disturbs saves its document exactly if the owner has fewer
   * live documents than the limit, and is refused otherwise; either way it
   * gives the owner's row back.
   */
  lemma UndisturbedCreate(s: State, id: CreateId, document: DocumentId, limit: nat)
    requires id !in s.creates && s.lock.None? && document !in s.live && document !in s.archived
    ensures
      var counted := Do(Do(Do(s, Begin(id), limit), Lock(id), limit), CountRoom(id), limit);
      var after := Do(Do(counted, Insert(id, document), limit), Commit(id), limit);
      if |s.live| < limit
      then after == s.(live := s.live + {document}, creates := s.creates[id := Saved(document)])
      else after == s.(creates := s.creates[id := Refused])
  {
    var holding := At(s, id, Holding).(lock := Some(id));
    assert Do(Do(s, Begin(id), limit), Lock(id), limit) == holding;
    if |s.live| < limit {
      var inserted := At(holding, id, Inserted(document));
      assert Do(Do(holding, CountRoom(id), limit), Insert(id, document), limit) == inserted;
    }
  }

  /** A public id somebody has, archived or not, ends the create without a document. */
  lemma TakenPublicIdEndsTheCreate(s: State, id: CreateId, document: DocumentId, limit: nat)
    requires id in s.creates && s.creates[id].Counted? && (document in s.live || document in s.archived)
    ensures
      var after := Do(s, Insert(id, document), limit);
      id !in after.creates && after.live == s.live && after.lock != Some(id)
  {
  }

  /** An aborted create gives the owner's row back and saves nothing; an archive takes its document off the count. */
  lemma AbortsAndArchivesMakeRoom(s: State, id: CreateId, document: DocumentId, limit: nat)
    ensures
      var aborted := Do(s, Abort(id), limit);
      && id !in aborted.creates && aborted.lock != Some(id) && aborted.live == s.live
      && (s.lock != Some(id) ==> aborted.lock == s.lock)
    ensures document in s.live ==>
              var archived := Do(s, Archive(document), limit);
              document !in archived.live && archived.live == s.live - {document} && document in archived.archived
  {
  }

  /** Whatever else goes on, a create is refused exactly if the limit is reached when it counts. */
  lemma RefusedIffFull(s: State, id: CreateId, limit: nat)
    requires id in s.creates && s.creates[id].Holding?
    ensures
      var after := Do(s, CountRoom(id), limit);
      && after.live == s.live && id in after.creates
      && (after.creates[id].Refused? <==> |s.live| >= limit)
      && (after.creates[id].Counted? <==> |s.live| < limit)
  {
  }

  /**
   * However creates and archives of an owner interleave, the unarchived
   * documents never exceed the limit, or what the owner already had above it.
   */
  lemma {:induction false} QuotaHolds(s: State, steps: seq<Step>, limit: nat)
    requires Sound(s, limit)
    ensures Sound(Run(s, steps, limit), limit)
    ensures |Run(s, steps, limit).live| <= Max(limit, |s.live|)
    decreases |steps|
  {
    if steps != [] {
      StepKeepsQuota(s, steps[0], limit);
      QuotaHolds(Do(s, steps[0], limit), steps[1..], limit);
    }
  }
}
