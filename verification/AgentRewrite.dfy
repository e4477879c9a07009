/**
 * The agent's read-modify-write loop over a stored document. Other writers run
 * between every two of its statements.
 */
module AgentRewrite {
  import opened Wrappers
  import opened Documents
  import AgentText

  const WRITE_ATTEMPTS: nat := 3
  const MAX_BODY_BYTES: nat := 512 * 1024

  datatype Outcome<+E> =
    | Written(before: Text, after: Text)
    | Gone
    | ChangeRefused(reason: E)
    | TooLarge
    | KeptChanging

  // A body is counted in bytes of its UTF-8 form.
  function ByteLength(text: Text): nat {
    if text == [] then 0
    else
      var code := text[0] as int;
      (if code < 0x80 then 1 else if code < 0x800 then 2 else if code < 0x10000 then 3 else 4) + ByteLength(text[1..])
  }

  // How many characters have at least this code.
  function AtLeast(text: Text, code: int): nat {
    if text == [] then 0 else (if text[0] as int >= code then 1 else 0) + AtLeast(text[1..], code)
  }

  /** One byte for every character, and one more from each of the three widths of UTF-8 on. */
  lemma {:induction false} BytesAreUtf8(text: Text)
    ensures ByteLength(text) == |text| + AtLeast(text, 0x80) + AtLeast(text, 0x800) + AtLeast(text, 0x10000)
  {
    if text != [] { BytesAreUtf8(text[1..]); }
  }

  // What others do, and the call's clock, at the points where it is between
  // two statements.
  datatype Surroundings = Surroundings(before: seq<Statement>, between: seq<Statement>, after: seq<Statement>,
                                       now: Time)

  predicate Quiet(around: Surroundings) { around.before == [] && around.between == [] && around.after == [] }

  ghost predicate Committed(store: StoredDocument, outcome: Outcome, actor: Actor)
    reads store
    requires outcome.Written?
  {
    && store.commits != [] && store.commits[|store.commits| - 1] == Commit(outcome.before, outcome.after, true)
    && store.body == outcome.after
    && store.lastEditor == Some(actor.Key()) && store.lastEditorName == actor.Name()
    && actor.Key() in store.contributors
  }

  // Why a call wrote nothing, by the document as it left it.
  ghost predicate Explained<E>(store: StoredDocument, change: Text -> Result<Text, E>, outcome: Outcome<E>)
    reads store
  {
    && (outcome.Written? ==> change(outcome.before) == Success(outcome.after) && ByteLength(outcome.after) <= 524_288)
    && (outcome.Gone? ==> store.archived.Some?)
    && (outcome.ChangeRefused? ==> change(store.body) == Failure(outcome.reason))
    && (outcome.TooLarge? ==> change(store.body).Success? && ByteLength(change(store.body).value) > 524_288)
  }

  // The outcome of a call nobody disturbs.
  function QuietOutcome<E>(archived: bool, body: Text, change: Text -> Result<Text, E>): Outcome<E> {
    if archived then Gone
    else if change(body).Failure? then ChangeRefused(change(body).error)
    else if ByteLength(change(body).value) > 524_288 then TooLarge
    else Written(body, change(body).value)
  }

  // Writes the body if the version is still the one read.
  method Save(store: StoredDocument, text: Text, version: nat, actor: Actor, around: Surroundings)
    returns (answer: Answer)
    requires store.Valid() && version <= store.version
    modifies store
    ensures store.Valid() && store.origin == old(store.origin) && old(store.commits) <= store.commits
    ensures answer.Updated? <==> old(store.archived).None? && old(store.version) == version
    ensures answer.Updated? ==>
              && store.commits == old(store.commits) + [Commit(old(store.body), text, true)] && store.body == text
              && store.lastEditor == Some(actor.Key()) && store.lastEditorName == actor.Name()
              && actor.Key() in store.contributors && store.starred == old(store.starred)
    ensures !answer.Updated? ==> Mine(store.commits) == Mine(old(store.commits))
    ensures answer.VersionConflict? ==> version < store.version
    ensures answer.NotFound? ==> store.archived.Some?
  {
    answer := store.UpdateOrExplain(Change(actor, Some(text), None, Some(version)), around.now, around.after);
  }

  // Reads, changes and writes once. Only a version conflict ends without an
  // outcome, and then somebody else has written.
  method Attempt<E>(store: StoredDocument, change: Text -> Result<Text, E>, actor: Actor, around: Surroundings)
    returns (outcome: Option<Outcome<E>>)
    requires store.Valid()
    modifies store
    ensures store.Valid() && store.origin == old(store.origin) && old(store.commits) <= store.commits
    ensures outcome.None? ==> |store.commits| > |old(store.commits)|
    ensures outcome.Some? ==> !outcome.value.KeptChanging? && Explained(store, change, outcome.value)
    ensures Mine(store.commits) ==
            Mine(old(store.commits)) + if outcome.Some? && outcome.value.Written? then 1 else 0
    ensures outcome.Some? && outcome.value.Written? ==>
              |store.commits| > |old(store.commits)| && Committed(store, outcome.value, actor)
    ensures Quiet(around) ==>
              && outcome == Some(QuietOutcome(old(store.archived).Some?, old(store.body), change))
              && store.starred == old(store.starred)
  {
    store.Interleave(around.before);
    if store.archived.Some? {
      return Some(Gone);
    }
    var body, version := store.body, store.version;
    var changed := change(body);
    if changed.Failure? {
      return Some(ChangeRefused(changed.error));
    }
    if ByteLength(changed.value) > MAX_BODY_BYTES {
      return Some(TooLarge);
    }
    ghost var read := store.commits;
    store.Interleave(around.between);
    // Equal versions mean equal histories, so the body is still the one read.
    assert store.version == version ==> store.commits == read;
    var answer := Save(store, changed.value, version, actor, around);
    match answer {
      case Updated(_, _) => return Some(Written(body, changed.value));
      case NotFound => return Some(Gone);
      case VersionConflict => return None;
    }
  }

  /**
   * If the call succeeds it commits exactly one write in the caller's name,
   * `change` applied to the body right before it in commit order; otherwise it
   * commits none. It gives up only after three attempts, each of which lost to
   * another writer; undisturbed, its first attempt decides.
   */
  method Rewrite<E>(store: StoredDocument, change: Text -> Result<Text, E>, actor: Actor, around: nat -> Surroundings)
    returns (outcome: Outcome<E>, attempts: nat)
    requires store.Valid()
    modifies store
    ensures store.Valid() && store.origin == old(store.origin) && old(store.commits) <= store.commits
    ensures attempts <= 3
    ensures Mine(store.commits) == Mine(old(store.commits)) + if outcome.Written? then 1 else 0
    ensures outcome.Written? ==> |store.commits| > |old(store.commits)| && Committed(store, outcome, actor)
    ensures Explained(store, change, outcome)
    ensures outcome.KeptChanging? ==> attempts == 3 && |store.commits| >= |old(store.commits)| + 3
    ensures Quiet(around(0)) ==>
              && attempts == 1 && outcome == QuietOutcome(old(store.archived).Some?, old(store.body), change)
              && store.starred == old(store.starred)
  {
    attempts := 0;
    while attempts < WRITE_ATTEMPTS
      invariant attempts <= WRITE_ATTEMPTS && (attempts > 0 ==> !Quiet(around(0)))
      invariant store.Valid() && store.origin == old(store.origin) && old(store.commits) <= store.commits
      invariant attempts == 0 ==> store.commits == old(store.commits) && store.body == old(store.body)
      invariant attempts == 0 ==>
                  store.archived == old(store.archived) && store.starred == old(store.starred)
      invariant Mine(store.commits) == Mine(old(store.commits))
      invariant |store.commits| >= |old(store.commits)| + attempts
    {
      var result := Attempt(store, change, actor, around(attempts));
      attempts := attempts + 1;
      if result.Some? {
        return result.value, attempts;
      }
    }
    return KeptChanging, attempts;
  }

  /** A written edit replaced the leftmost match in the body right before it and kept the rest. */
  method Edit(store: StoredDocument, passage: Text, replacement: Text, actor: Actor, around: nat -> Surroundings)
    returns (outcome: Outcome<AgentText.EditError>)
    requires store.Valid()
    modifies store
    ensures store.Valid() && Mine(store.commits) == Mine(old(store.commits)) + if outcome.Written? then 1 else 0
    ensures outcome.Written? ==>
              && Committed(store, outcome, actor)
              && exists i :: AgentText.MatchesAt(outcome.before, passage, i)
                             && (forall j :: AgentText.MatchesAt(outcome.before, passage, j) ==> i <= j)
                             && outcome.after == outcome.before[..i] + replacement + outcome.before[i + |passage|..]
    ensures passage == "" ==> outcome == ChangeRefused(AgentText.EmptyPassage) && store.commits == old(store.commits)
    ensures passage != "" && Quiet(around(0)) ==>
              outcome == QuietOutcome(old(store.archived).Some?, old(store.body),
                                      body => AgentText.Edit(body, passage, replacement))
  {
    if passage == "" {
      return ChangeRefused(AgentText.EmptyPassage);
    }
    var change := body => AgentText.Edit(body, passage, replacement);
    var attempts;
    outcome, attempts := Rewrite(store, change, actor, around);
    if outcome.Written? {
      AgentText.EditReplacesLeftmost(outcome.before, passage, replacement);
    }
    assert forall archived, body ::
        QuietOutcome(archived, body, change)
        == QuietOutcome(archived, body, body => AgentText.Edit(body, passage, replacement));
  }

  /** A written append added one paragraph to the body right before it. */
  method AppendTo(store: StoredDocument, markdown: Text, actor: Actor, around: nat -> Surroundings)
    returns (outcome: Outcome<AgentText.AppendError>)
    requires store.Valid()
    modifies store
    ensures store.Valid() && Mine(store.commits) == Mine(old(store.commits)) + if outcome.Written? then 1 else 0
    ensures outcome.Written? ==>
              Committed(store, outcome, actor) && outcome.after == AgentText.AppendAll(outcome.before, [markdown])
    ensures (forall i :: 0 <= i < |markdown| ==> AgentText.IsSpace(markdown[i])) ==>
              outcome == ChangeRefused(AgentText.NothingToAdd) && store.commits == old(store.commits)
    ensures (exists i :: 0 <= i < |markdown| && !AgentText.IsSpace(markdown[i])) && Quiet(around(0)) ==>
              outcome == QuietOutcome(old(store.archived).Some?, old(store.body),
                                      body => AgentText.Append(body, markdown))
  {
    AgentText.BlankAppendIsRefused("", markdown);
    if AgentText.IsBlank(AgentText.Addition(markdown)) {
      return ChangeRefused(AgentText.NothingToAdd);
    }
    var change := body => AgentText.Append(body, markdown);
    var attempts;
    outcome, attempts := Rewrite(store, change, actor, around);
    if outcome.Written? {
      assert [markdown][..0] == [];
    }
    assert forall archived, body ::
        QuietOutcome(archived, body, change)
        == QuietOutcome(archived, body, body => AgentText.Append(body, markdown));
  }
}
