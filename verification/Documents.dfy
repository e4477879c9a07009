/**
 * One stored document and the statements that write it: guarded updates,
 * archive, share and unshare. Every statement is atomic; a run is any sequence
 * of statements from any number of writers.
 */
module Documents {
  import opened Wrappers

  type Text = string
  type ActorKey = string
  type Time = int

  const OWNER: ActorKey := "owner"

  // Who writes: an API token, or the owner in a browser when there is none.
  datatype Actor = Actor(tokenId: string, tokenName: string) {
    function Key(): ActorKey { if tokenId == "" then OWNER else tokenId }

    function Name(): Option<string> { if tokenName == "" then None else Some(tokenName) }
  }

  datatype Contribution = Contribution(name: Option<string>, first: Time, last: Time)

  datatype Document = Document(
    body: Text,
    starred: bool,
    version: nat,
    lastEditor: Option<ActorKey>,
    lastEditorName: Option<string>,
    lastEdited: Option<Time>,
    contributors: map<ActorKey, Contribution>,
    shared: Option<Time>,
    archived: Option<Time>,
    updated: Time)

  datatype Change = Change(actor: Actor, body: Option<Text>, starred: Option<bool>, ifVersion: Option<nat>)

  datatype Statement = Update(change: Change, now: Time) | Archive(now: Time) | Share(now: Time) | Unshare(now: Time)

  // One row per identity: a first contribution opens it, later ones refresh it.
  function Recorded(contributors: map<ActorKey, Contribution>, actor: Actor, now: Time): map<ActorKey, Contribution> {
    var key := actor.Key();
    if key in contributors
    then
      var name := if actor.Name().Some? then actor.Name() else contributors[key].name;
      contributors[key := Contribution(name, contributors[key].first, now)]
    else contributors[key := Contribution(actor.Name(), now, now)]
  }

  function Created(body: Text, actor: Actor, now: Time): Document {
    Document(body, false, 1, Some(actor.Key()), actor.Name(), Some(now), Recorded(map[], actor, now), None, None, now)
  }

  predicate Accepts(d: Document, change: Change) {
    d.archived.None? && (change.ifVersion.None? || change.ifVersion.value == d.version)
  }

  function Changed(d: Document, change: Change, now: Time): Document {
    var starred := d.(starred := if change.starred.Some? then change.starred.value else d.starred, updated := now);
    if change.body.None? then starred
    else starred.(body := change.body.value,
                  version := d.version + 1,
                  lastEditor := Some(change.actor.Key()),
                  lastEditorName := change.actor.Name(),
                  lastEdited := Some(now),
                  contributors := Recorded(d.contributors, change.actor, now))
  }

  function Execute(d: Document, s: Statement): Document {
    match s
    case Update(change, now) => if Accepts(d, change) then Changed(d, change, now) else d
    case Archive(now) => if d.archived.None? && d.shared.None? then d.(archived := Some(now), updated := now) else d
    case Share(now) =>
      if d.archived.None? then d.(shared := if d.shared.Some? then d.shared else Some(now), updated := now) else d
    case Unshare(now) => if d.archived.None? then d.(shared := None, updated := now) else d
  }

  function ExecuteAll(d: Document, run: seq<Statement>): Document
    decreases |run|
  {
    if run == [] then d else ExecuteAll(Execute(d, run[0]), run[1..])
  }

  // ----- The document as the store keeps it -----

  // A committed body write, in commit order. `mine` marks the writes of the
  // one call a proof is about.
  datatype Commit = Commit(before: Text, after: Text, mine: bool)

  datatype Answer = Updated(body: Text, version: nat) | VersionConflict | NotFound

  class StoredDocument {
    var body: Text
    var starred: bool
    var version: nat
    var lastEditor: Option<ActorKey>
    var lastEditorName: Option<string>
    var lastEdited: Option<Time>
    var contributors: map<ActorKey, Contribution>
    var shared: Option<Time>
    var archived: Option<Time>
    var updated: Time

    ghost var origin: Text
    ghost var commits: seq<Commit>

    ghost function Row(): Document
      reads this
    {
      Document(body, starred, version, lastEditor, lastEditorName, lastEdited, contributors, shared, archived, updated)
    }

    // The body is what the last commit wrote, and each commit replaced exactly
    // what the one before it wrote.
    ghost predicate Valid()
      reads this
    {
      && version == 1 + |commits|
      && body == BodyAfter(origin, commits)
      && Chained(origin, commits)
    }

    constructor (body: Text, actor: Actor, now: Time)
      ensures Valid() && Row() == Created(body, actor, now) && commits == [] && origin == body
      ensures this.body == body && version == 1 && !starred && shared == None && archived == None && updated == now
      ensures var key := if actor.tokenId == "" then "owner" else actor.tokenId;
              var name := if actor.tokenName == "" then None else Some(actor.tokenName);
              && lastEditor == Some(key) && lastEditorName == name && lastEdited == Some(now)
              && contributors == map[key := Contribution(name, now, now)]
    {
      this.body, starred, version, updated := body, false, 1, now;
      lastEditor, lastEditorName, lastEdited := Some(actor.Key()), actor.Name(), Some(now);
      contributors := map[actor.Key() := Contribution(actor.Name(), now, now)];
      shared, archived := None, None;
      origin, commits := body, [];
    }

    method Update(change: Change, now: Time, ghost mine: bool) returns (accepted: bool)
      requires Valid()
      modifies this
      ensures Valid() && origin == old(origin)
      ensures accepted <==>
              old(archived).None? && (change.ifVersion.None? || change.ifVersion.value == old(version))
      ensures Row() == if accepted then Changed(old(Row()), change, now) else old(Row())
      ensures commits == if accepted && change.body.Some? then old(commits) + [Commit(old(body), body, mine)]
                         else old(commits)
    {
      accepted := archived.None? && (change.ifVersion.None? || change.ifVersion.value == version);
      if accepted {
        if change.starred.Some? {
          starred := change.starred.value;
        }
        updated := now;
        if change.body.Some? {
          WriteBody(change.body.value, change.actor, now, mine);
        }
      }
    }

    method WriteBody(text: Text, actor: Actor, now: Time, ghost mine: bool)
      requires Valid()
      modifies this`body, this`version, this`lastEditor, this`lastEditorName, this`lastEdited, this`contributors,
               this`commits
      ensures Valid() && commits == old(commits) + [Commit(old(body), text, mine)]
      ensures body == text && version == old(version) + 1
      ensures lastEditor == Some(actor.Key()) && lastEditorName == actor.Name() && lastEdited == Some(now)
      ensures contributors == Recorded(old(contributors), actor, now)
    {
      commits := commits + [Commit(body, text, mine)];
      body, version := text, version + 1;
      lastEditor, lastEditorName, lastEdited := Some(actor.Key()), actor.Name(), Some(now);
      RecordContribution(actor, now);
      assert commits[..|commits| - 1] == old(commits);
    }

    method RecordContribution(actor: Actor, now: Time)
      modifies this`contributors
      ensures contributors == Recorded(old(contributors), actor, now)
    {
      var key, name := actor.Key(), actor.Name();
      if key in contributors {
        if name.None? {
          name := contributors[key].name;
        }
        contributors := contributors[key := Contribution(name, contributors[key].first, now)];
      } else {
        contributors := contributors[key := Contribution(name, now, now)];
      }
    }

    method ChangeVisibility(s: Statement)
      requires Valid() && !s.Update?
      modifies this`shared, this`archived, this`updated
      ensures Valid() && Row() == Execute(old(Row()), s)
    {
      if archived.Some? || (s.Archive? && shared.Some?) {
        return;
      }
      match s {
        case Archive(now) => archived := Some(now);
        case Share(now) => if shared.None? { shared := Some(now); }
        case Unshare(now) => shared := None;
      }
      updated := s.now;
    }

    // What other writers do in the meantime.
    method Interleave(run: seq<Statement>)
      requires Valid()
      modifies this
      ensures Valid() && origin == old(origin)
      ensures Row() == ExecuteAll(old(Row()), run)
      ensures old(commits) <= commits && Mine(commits) == Mine(old(commits))
      ensures old(archived).Some? ==> archived.Some? && commits == old(commits)
    {
      var i := 0;
      while i < |run|
        invariant 0 <= i <= |run| && Valid() && origin == old(origin)
        invariant ExecuteAll(Row(), run[i..]) == ExecuteAll(old(Row()), run)
        invariant old(commits) <= commits && Mine(commits) == Mine(old(commits))
        invariant old(archived).Some? ==> archived.Some? && commits == old(commits)
      {
        if run[i].Update? {
          var _ := Update(run[i].change, run[i].now, false);
        } else {
          ChangeVisibility(run[i]);
        }
        assert run[i..][1..] == run[i + 1..];
        i := i + 1;
      }
    }

    // The store's update: one guarded statement, and when it matched nothing a
    // second one that finds out why. Others may write between the two.
    method UpdateOrExplain(change: Change, now: Time, between: seq<Statement>) returns (answer: Answer)
      requires Valid()
      modifies this
      ensures Valid() && origin == old(origin) && old(commits) <= commits
      ensures answer.Updated? <==> Accepts(old(Row()), change)
      ensures answer.Updated? ==> Row() == Changed(old(Row()), change, now) && answer == Updated(body, version)
      ensures answer.Updated? ==>
                commits == old(commits) + if change.body.Some? then [Commit(old(body), change.body.value, true)] else []
      ensures !answer.Updated? ==> Row() == ExecuteAll(old(Row()), between) && Mine(commits) == Mine(old(commits))
      // A guard taken from a version that existed is told a conflict from a
      // document that is gone.
      ensures change.ifVersion.Some? && change.ifVersion.value <= old(version) ==>
                && (answer.VersionConflict? ==> archived.None? && change.ifVersion.value < version)
                && (answer.NotFound? ==> archived.Some?)
      ensures change.ifVersion.None? && answer.NotFound? ==> archived.Some?
    {
      var accepted := Update(change, now, true);
      if accepted {
        return Updated(body, version);
      }
      Interleave(between);
      if archived.Some? {
        return NotFound;
      }
      if change.ifVersion.Some? && change.ifVersion.value != version {
        return VersionConflict;
      }
      return NotFound;
    }

    // The store's archive: one statement that reads the row in its snapshot and
    // writes it as it is once the lock is granted. Others may write in between.
    method ArchiveOrExplain(now: Time, between: seq<Statement>) returns (answer: ArchiveAnswer)
      requires Valid()
      modifies this
      ensures Valid() && origin == old(origin)
      ensures answer == AnswerArchive(old(Row()), ExecuteAll(old(Row()), between))
      ensures answer.StillShared? <==> old(archived).None? && old(shared).Some?
      ensures var locked := ExecuteAll(old(Row()), between);
              answer.Archived? <==>
              old(archived).None? && old(shared).None? && locked.archived.None? && locked.shared.None?
      ensures var locked := ExecuteAll(old(Row()), between);
              Row() == if answer.Archived? then locked.(archived := Some(now), updated := now) else locked
    {
      var found := archived.None?;
      var seenShared := found && shared.Some?;
      Interleave(between);
      if found && !seenShared && archived.None? && shared.None? {
        ChangeVisibility(Statement.Archive(now));
        return Archived;
      }
      answer := if seenShared then StillShared else Missing;
    }
  }

  ghost function BodyAfter(origin: Text, commits: seq<Commit>): Text {
    if commits == [] then origin else commits[|commits| - 1].after
  }

  ghost predicate Chained(origin: Text, commits: seq<Commit>) {
    commits == [] ||
    var earlier := commits[..|commits| - 1];
    Chained(origin, earlier) && commits[|commits| - 1].before == BodyAfter(origin, earlier)
  }

  ghost function Mine(commits: seq<Commit>): nat {
    if commits == [] then 0 else Mine(commits[..|commits| - 1]) + if commits[|commits| - 1].mine then 1 else 0
  }

  // ----- What a run leaves behind -----

  datatype Write = Write(actor: Actor, body: Text, now: Time)

  predicate WritesBody(d: Document, s: Statement) {
    s.Update? && s.change.body.Some? && Accepts(d, s.change)
  }

  // The body writes a run gets accepted, in order.
  function Writes(d: Document, run: seq<Statement>): seq<Write>
    decreases |run|
  {
    if run == [] then []
    else
      (if WritesBody(d, run[0]) then [Write(run[0].change.actor, run[0].change.body.value, run[0].now)] else [])
      + Writes(Execute(d, run[0]), run[1..])
  }

  function LatestBy(writes: seq<Write>, key: ActorKey): Option<Time> {
    if writes == [] then None
    else if writes[|writes| - 1].actor.Key() == key then Some(writes[|writes| - 1].now)
    else LatestBy(writes[..|writes| - 1], key)
  }

  function FirstBy(writes: seq<Write>, key: ActorKey): Option<Time> {
    if writes == [] then None
    else if writes[0].actor.Key() == key then Some(writes[0].now)
    else FirstBy(writes[1..], key)
  }

  // The latest name an actor signed with; unsigned writes do not erase it.
  function NameBy(writes: seq<Write>, key: ActorKey): Option<string> {
    if writes == [] then None
    else
      var last := writes[|writes| - 1].actor;
      if last.Key() == key && last.Name().Some? then last.Name() else NameBy(writes[..|writes| - 1], key)
  }

  lemma {:induction false} NameInTail(first: Write, rest: seq<Write>, key: ActorKey)
    ensures NameBy([first] + rest, key) ==
            if NameBy(rest, key).Some? then NameBy(rest, key)
            else if first.actor.Key() == key then first.actor.Name() else None
  {
    if rest == [] {
      assert ([first] + rest)[..0] == [];
    } else {
      assert ([first] + rest)[..|rest|] == [first] + rest[..|rest| - 1];
      NameInTail(first, rest[..|rest| - 1], key);
    }
  }

  lemma {:induction false} LatestInTail(first: Write, rest: seq<Write>, key: ActorKey)
    ensures LatestBy([first] + rest, key) ==
            if LatestBy(rest, key).Some? then LatestBy(rest, key)
            else if first.actor.Key() == key then Some(first.now) else None
  {
    if rest == [] {
      assert ([first] + rest)[..0] == [];
    } else {
      assert ([first] + rest)[..|rest|] == [first] + rest[..|rest| - 1];
      LatestInTail(first, rest[..|rest| - 1], key);
    }
  }

  // The row agrees with the accepted writes and with nothing else.
  ghost predicate Accounts(d: Document, writes: seq<Write>, after: Document) {
    && after.version == d.version + |writes|
    && (writes == [] ==>
          && after.body == d.body && after.contributors == d.contributors
          && after.lastEditor == d.lastEditor && after.lastEditorName == d.lastEditorName
          && after.lastEdited == d.lastEdited)
    && (writes != [] ==>
          var last := writes[|writes| - 1];
          && after.body == last.body
          && after.lastEditor == Some(last.actor.Key())
          && after.lastEditorName == last.actor.Name()
          && after.lastEdited == Some(last.now))
    && (forall key :: Credits(d.contributors, writes, after.contributors, key))
  }

  // One row per actor of the document or of its accepted writes: opened by the
  // actor's first write, dated by the latest, under the latest name given.
  ghost predicate Credits(before: map<ActorKey, Contribution>, writes: seq<Write>, after: map<ActorKey, Contribution>,
                          key: ActorKey)
  {
    && (key in after <==> key in before || LatestBy(writes, key).Some?)
    && (LatestBy(writes, key).Some? <==> FirstBy(writes, key).Some?)
    && (key in after ==>
          && after[key].first == (if key in before then before[key].first else FirstBy(writes, key).value)
          && after[key].last == (if LatestBy(writes, key).Some? then LatestBy(writes, key).value else before[key].last)
          && after[key].name ==
             (if NameBy(writes, key).Some? then NameBy(writes, key)
              else if key in before then before[key].name else None))
  }

  /**
   * Over any run, the version counts exactly the accepted body writes, body and
   * last editor are the latest one's, and contributors are exactly its actors,
   * one row each. Stars, shares, archives and refused writes change none of it.
   */
  lemma {:induction false} VersionCountsWrites(d: Document, run: seq<Statement>)
    ensures Accounts(d, Writes(d, run), ExecuteAll(d, run))
    decreases |run|
  {
    if run != [] {
      var next := Execute(d, run[0]);
      var rest := Writes(next, run[1..]);
      VersionCountsWrites(next, run[1..]);
      if WritesBody(d, run[0]) {
        var first := Write(run[0].change.actor, run[0].change.body.value, run[0].now);
        WriteThenRest(d, next, first, rest, ExecuteAll(d, run));
      } else {
        assert Writes(d, run) == rest;
        OtherThenRest(d, run[0], rest, ExecuteAll(d, run));
      }
    }
  }

  lemma OtherThenRest(d: Document, s: Statement, rest: seq<Write>, after: Document)
    requires !WritesBody(d, s) && Accounts(Execute(d, s), rest, after)
    ensures Accounts(d, rest, after)
  {
    var next := Execute(d, s);
    assert next.version == d.version && next.body == d.body && next.contributors == d.contributors;
    assert next.lastEditor == d.lastEditor && next.lastEditorName == d.lastEditorName
           && next.lastEdited == d.lastEdited;
  }

  lemma WriteThenRest(d: Document, next: Document, first: Write, rest: seq<Write>, after: Document)
    requires Accounts(next, rest, after)
    requires next.version == d.version + 1 && next.body == first.body
    requires next.lastEditor == Some(first.actor.Key()) && next.lastEditorName == first.actor.Name()
             && next.lastEdited == Some(first.now)
    requires next.contributors == Recorded(d.contributors, first.actor, first.now)
    ensures Accounts(d, [first] + rest, after)
  {
    forall key ensures Credits(d.contributors, [first] + rest, after.contributors, key) {
      assert Credits(next.contributors, rest, after.contributors, key);
      CreditsThenRest(d.contributors, first, rest, after.contributors, key);
    }
  }

  lemma CreditsThenRest(before: map<ActorKey, Contribution>, first: Write, rest: seq<Write>,
                        after: map<ActorKey, Contribution>, key: ActorKey)
    requires Credits(Recorded(before, first.actor, first.now), rest, after, key)
    ensures Credits(before, [first] + rest, after, key)
  {
    LatestInTail(first, rest, key);
    NameInTail(first, rest, key);
    assert ([first] + rest)[1..] == rest;
  }

  // The statement finds the document live, at the version it asks for, and, to
  // archive it, unshared.
  predicate TakesEffect(d: Document, s: Statement) {
    && d.archived.None?
    && (s.Archive? ==> d.shared.None?)
    && (s.Update? && s.change.ifVersion.Some? ==> s.change.ifVersion.value == d.version)
  }

  function LastTouch(d: Document, run: seq<Statement>): Option<Time>
    decreases |run|
  {
    if run == [] then None
    else
      var later := LastTouch(Execute(d, run[0]), run[1..]);
      if later.Some? then later else if TakesEffect(d, run[0]) then Some(run[0].now) else None
  }

  function LastStar(d: Document, run: seq<Statement>): Option<bool>
    decreases |run|
  {
    if run == [] then None
    else
      var later := LastStar(Execute(d, run[0]), run[1..]);
      if later.Some? then later
      else if run[0].Update? && TakesEffect(d, run[0]) then run[0].change.starred else None
  }

  /**
   * Over any run, the update time is that of the last statement to take effect,
   * whatever it changed, and the star is the last one an accepted update set.
   */
  lemma {:induction false} StarAndTimeFollowTheRun(d: Document, run: seq<Statement>)
    ensures ExecuteAll(d, run).updated == if LastTouch(d, run).Some? then LastTouch(d, run).value else d.updated
    ensures ExecuteAll(d, run).starred == if LastStar(d, run).Some? then LastStar(d, run).value else d.starred
    decreases |run|
  {
    if run != [] { StarAndTimeFollowTheRun(Execute(d, run[0]), run[1..]); }
  }

  predicate Guarded(s: Statement, version: nat) {
    s.Update? && s.change.body.Some? && s.change.ifVersion == Some(version)
  }

  lemma {:induction false} OutdatedGuardFails(d: Document, run: seq<Statement>, version: nat, i: nat)
    requires version < d.version && i < |run| && Guarded(run[i], version)
    ensures !WritesBody(ExecuteAll(d, run[..i]), run[i])
    decreases |run|
  {
    if i > 0 {
      assert run[..i][1..] == run[1..][..i - 1];
      OutdatedGuardFails(Execute(d, run[0]), run[1..], version, i - 1);
    }
  }

  /** Of all the body writes of a run guarded by one version, at most one is accepted. */
  lemma {:induction false} OneWritePerVersion(d: Document, run: seq<Statement>, version: nat, i: nat, j: nat)
    requires i < j < |run| && Guarded(run[i], version) && Guarded(run[j], version)
    requires WritesBody(ExecuteAll(d, run[..i]), run[i])
    ensures !WritesBody(ExecuteAll(d, run[..j]), run[j])
    decreases |run|
  {
    var next := Execute(d, run[0]);
    assert run[..j][1..] == run[1..][..j - 1];
    if i == 0 {
      OutdatedGuardFails(next, run[1..], version, j - 1);
    } else {
      assert run[..i][1..] == run[1..][..i - 1];
      OneWritePerVersion(next, run[1..], version, i - 1, j - 1);
    }
  }

  predicate ArchivedAndShared(d: Document) { d.archived.Some? && d.shared.Some? }

  /** An archived document is unshared, whatever the order of archives, shares and unshares, and stays archived. */
  lemma {:induction false} NeverArchivedAndShared(d: Document, run: seq<Statement>)
    requires !ArchivedAndShared(d)
    ensures !ArchivedAndShared(ExecuteAll(d, run))
    ensures d.archived.Some? ==> ExecuteAll(d, run) == d
    decreases |run|
  {
    if run != [] { NeverArchivedAndShared(Execute(d, run[0]), run[1..]); }
  }

  /** A share keeps its first time until it is taken back. */
  lemma {:induction false} ShareTimeIsTheFirst(d: Document, run: seq<Statement>)
    requires d.shared.Some? && forall i :: 0 <= i < |run| ==> !run[i].Unshare?
    ensures ExecuteAll(d, run).shared == d.shared
    decreases |run|
  {
    if run != [] { ShareTimeIsTheFirst(Execute(d, run[0]), run[1..]); }
  }

  // ----- What an archive answers -----

  datatype ArchiveAnswer = Archived | StillShared | Missing

  // The statement reads the row in its snapshot, then writes the row as it is
  // once the lock is granted, if both still qualify.
  function AnswerArchive(seen: Document, locked: Document): ArchiveAnswer {
    if seen.archived.None? && seen.shared.None? && locked.archived.None? && locked.shared.None? then Archived
    else if seen.archived.None? && seen.shared.Some? then StillShared
    else Missing
  }

  // The run shares the document and does not take that back.
  ghost predicate LeavesShared(run: seq<Statement>) {
    exists i :: 0 <= i < |run| && run[i].Share? && NoUnshare(run[i + 1..])
  }

  predicate NoUnshare(run: seq<Statement>) { forall i :: 0 <= i < |run| ==> !run[i].Unshare? }

  // Whether a document that is still live at the end of a run is shared then.
  lemma {:induction false} SharedAfter(d: Document, run: seq<Statement>)
    requires !ArchivedAndShared(d) && ExecuteAll(d, run).archived.None?
    ensures ExecuteAll(d, run).shared.Some? <==> (d.shared.Some? && NoUnshare(run)) || LeavesShared(run)
    decreases |run|
  {
    if run != [] {
      var next, rest := Execute(d, run[0]), run[1..];
      NeverArchivedAndShared(d, run);
      NeverArchivedAndShared(next, rest);
      SharedAfter(next, rest);
      LeavesSharedFrom(run);
      assert NoUnshare(run) <==> !run[0].Unshare? && NoUnshare(rest) by {
        assert forall i :: 0 < i < |run| ==> run[i] == rest[i - 1];
      }
    }
  }

  lemma LeavesSharedFrom(run: seq<Statement>)
    requires run != []
    ensures LeavesShared(run) <==> (run[0].Share? && NoUnshare(run[1..])) || LeavesShared(run[1..])
  {
    var rest := run[1..];
    if LeavesShared(run) {
      var i :| 0 <= i < |run| && run[i].Share? && NoUnshare(run[i + 1..]);
      if i > 0 { assert rest[i - 1] == run[i] && rest[i..] == run[i + 1..]; }
    }
    if LeavesShared(rest) {
      var i :| 0 <= i < |rest| && rest[i].Share? && NoUnshare(rest[i + 1..]);
      assert run[i + 1] == rest[i] && run[i + 2..] == rest[i + 1..];
    }
  }

  /**
   * A document that is still there is reported missing exactly when it was
   * unshared in the archive's snapshot and a share that nobody takes back
   * commits before the lock is granted.
   */
  lemma LiveDocumentReportedMissing(seen: Document, between: seq<Statement>)
    requires !ArchivedAndShared(seen) && ExecuteAll(seen, between).archived.None?
    ensures AnswerArchive(seen, ExecuteAll(seen, between)).Missing? <==> seen.shared.None? && LeavesShared(between)
  {
    NeverArchivedAndShared(seen, between);
    SharedAfter(seen, between);
  }

  /** A new document shared while its archive waits for the lock. */
  lemma MissingWhileSharedRun(body: Text, actor: Actor, now: Time)
    ensures
      var created := Created(body, actor, now);
      var locked := ExecuteAll(created, [Share(now)]);
      locked.archived.None? && AnswerArchive(created, locked).Missing?
  {
    var run := [Share(now)];
    assert run[0].Share? && NoUnshare(run[0 + 1..]);
    assert ExecuteAll(Created(body, actor, now), run).archived.None?;
    LiveDocumentReportedMissing(Created(body, actor, now), run);
  }
}
