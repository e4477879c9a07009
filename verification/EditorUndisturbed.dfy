/**
 * What a tab does when it is left alone: an edit is saved, an outdated one is
 * reported, and each choice and each background step does what it is for.
 */
module EditorUndisturbed {
  import opened Wrappers
  import opened EditorAutosave

  // The edit is typed, sent and processed.
  function TypedAndProcessed(s: State, text: Text, at: Time): State
    requires s.bodies != []
  {
    Run(s, [Type(text), Autosave, Process(|s.flights|, at)])
  }

  /** An edit of the newest version is saved: server and tab hold it, and nothing is pending. */
  lemma EditIsSaved(s: State, text: Text, at: Time)
    requires s.bodies != [] && s.browser.loaded && s.focused && s.browser.version == Some(|s.bodies|)
    ensures
      var saved := Do(TypedAndProcessed(s, text, at), Deliver(|s.flights|));
      && saved.bodies == s.bodies + [text] && saved.updated == at
      && saved.browser.text == text && saved.browser.pending.None? && saved.browser.loaded
      && saved.browser.version == Some(|s.bodies| + 1) && saved.browser.conflict == s.browser.conflict
      && saved.browser.stamp == (if s.browser.stamp < at then at else s.browser.stamp)
  {
    TypedAndSent(s, text);
    RunOfThree(s, Type(text), Autosave, Process(|s.flights|, at));
    var sent := Do(Do(s, Type(text)), Autosave);
    var processed := Do(sent, Process(|s.flights|, at));
    assert processed.bodies == s.bodies + [text] && processed.browser == sent.browser;
    assert InProgress(processed, |s.flights|, Replied(Accepted(|s.bodies| + 1, at)));
  }

  lemma TypedAndSent(s: State, text: Text)
    requires s.bodies != [] && s.browser.loaded && s.focused
    ensures
      var b, n := s.browser, s.browser.edits;
      Do(Do(s, Type(text)), Autosave) == s.(
        browser := b.(text := text, pending := Some(Pending(text, n)), sent := true, edits := n + 1),
        flights := s.flights + [Flight(Save(text, b.version, n), Travelling)], typed := Some(text), draft := n)
  {
  }

  /** An edit of an older version is refused: nothing is written, and the draft waits in a conflict. */
  lemma OutdatedEditConflicts(s: State, text: Text, at: Time)
    requires s.bodies != [] && s.browser.loaded && s.focused
    requires s.browser.version.Some? && s.browser.version.value != |s.bodies|
    ensures
      var told := Run(TypedAndProcessed(s, text, at), [ReadCurrent(|s.flights|), Deliver(|s.flights|)]);
      && told.bodies == s.bodies && told.updated == s.updated
      && told.browser.text == text && told.browser.pending.None? && told.browser.version == s.browser.version
      && told.browser.conflict == Some(Conflict(text, Copy(s.bodies[|s.bodies| - 1], |s.bodies|, s.updated)))
  {
    var i := |s.flights|;
    TypedAndSent(s, text);
    RunOfThree(s, Type(text), Autosave, Process(i, at));
    var sent := Do(Do(s, Type(text)), Autosave);
    var refused := Do(sent, Process(i, at));
    assert refused == Moved(sent, i, Rejected);
    RunOfTwo(refused, ReadCurrent(i), Deliver(i));
    assert InProgress(Do(refused, ReadCurrent(i)), i, Replied(Conflicted(Stored(s))));
  }

  /**
   * Typing through a save in flight is no conflict: the answer of the first
   * save brings the version the second is sent with.
   */
  lemma TypingThroughASaveIsNoConflict(s: State, first: Text, second: Text, at: Time, later: Time)
    requires s.bodies != [] && s.browser.loaded && s.focused && s.browser.version == Some(|s.bodies|)
    ensures
      var typed := Do(TypedAndProcessed(s, first, at), Type(second));
      var noted := Do(typed, Deliver(|s.flights|));
      var saved := Run(noted, [Autosave, Process(|s.flights| + 1, later)]);
      && noted.browser.text == second
      && saved.bodies == s.bodies + [first, second] && saved.browser.conflict == s.browser.conflict
  {
    FirstIsNoted(s, first, second, at);
    PendingLands(Do(Do(TypedAndProcessed(s, first, at), Type(second)), Deliver(|s.flights|)), later);
  }

  lemma FirstIsNoted(s: State, first: Text, second: Text, at: Time)
    requires s.bodies != [] && s.browser.loaded && s.focused && s.browser.version == Some(|s.bodies|)
    ensures
      var noted := Do(Do(TypedAndProcessed(s, first, at), Type(second)), Deliver(|s.flights|));
      && noted.browser.text == second && noted.browser.conflict == s.browser.conflict
      && Unsent(noted.browser) && noted.browser.pending.value.body == second
      && noted.bodies == s.bodies + [first] && noted.browser.version == Some(|noted.bodies|)
      && |noted.flights| == |s.flights| + 1
  {
    var i := |s.flights|;
    TypedAndSent(s, first);
    RunOfThree(s, Type(first), Autosave, Process(i, at));
    var typed := Do(TypedAndProcessed(s, first, at), Type(second));
    assert typed.bodies == s.bodies + [first] && InProgress(typed, i, Replied(Accepted(|s.bodies| + 1, at)));
    assert |typed.flights| == i + 1;
  }

  // An unsent edit, sent with the newest version, is the server's next content.
  lemma PendingLands(s: State, at: Time)
    requires s.bodies != [] && Unsent(s.browser) && s.browser.version == Some(|s.bodies|)
    ensures
      var saved := Run(s, [Autosave, Process(|s.flights|, at)]);
      && saved.bodies == s.bodies + [s.browser.pending.value.body]
      && saved.browser == s.browser.(sent := true)
  {
    RunOfTwo(s, Autosave, Process(|s.flights|, at));
    var sent := Do(s, Autosave);
    assert InProgress(sent, |s.flights|, Travelling) && sent.flights[|s.flights|].save == NextSave(s.browser);
  }

  /** Keeping mine puts the text on screen on top of theirs. */
  lemma KeepingMinePublishesMine(s: State, at: Time)
    requires s.bodies != [] && s.focused && s.browser.conflict.Some?
    requires s.browser.conflict.value.current.version == |s.bodies|
    ensures
      var kept := Do(s, KeepMine);
      var saved := Run(kept, [Autosave, Process(|s.flights|, at)]);
      && kept.bodies == s.bodies && kept.browser.conflict.None? && kept.browser.text == s.browser.text
      && saved.bodies == s.bodies + [s.browser.text] && saved.browser.text == s.browser.text
  {
    PendingLands(Do(s, KeepMine), at);
  }

  /** Taking theirs shows theirs at once and writes nothing. */
  lemma TakingTheirsShowsTheirs(s: State)
    requires s.bodies != [] && s.focused && s.browser.conflict.Some?
    ensures
      var taken, current := Do(s, TakeTheirs), s.browser.conflict.value.current;
      && taken.bodies == s.bodies && taken.flights == s.flights && taken.browser.conflict.None?
      && taken.browser.text == current.body && taken.browser.version == Some(current.version)
      && taken.browser.loaded && taken.browser.stamp == current.updated
      && taken.browser.pending == s.browser.pending && taken.browser.sent == s.browser.sent
  {
  }

  /**
   * But the choice leaves a pending edit alone: typed while the conflict was
   * open, it is sent with their version next and replaces theirs.
   */
  lemma PendingEditReplacesTheirs(s: State, at: Time)
    requires s.bodies != [] && s.focused && s.browser.conflict.Some? && Unsent(s.browser)
    requires s.browser.conflict.value.current.version == |s.bodies|
    ensures
      var saved := Run(Do(s, TakeTheirs), [Autosave, Process(|s.flights|, at)]);
      saved.bodies == s.bodies + [s.browser.pending.value.body]
  {
    PendingLands(Do(s, TakeTheirs), at);
  }

  /** A document that is opened shows the server's content. */
  lemma OpenedDocumentIsLoaded(s: State)
    requires s.bodies != [] && !s.browser.loaded && s.load.Idle?
    ensures
      var shown := Run(s, [RequestLoad, ServeLoad, DeliverLoad]);
      && shown.browser.text == s.bodies[|s.bodies| - 1] && shown.browser.version == Some(|s.bodies|)
      && shown.browser.loaded && shown.load.Idle? && shown.bodies == s.bodies
      && shown.browser.stamp == (if s.browser.stamp < s.updated then s.updated else s.browser.stamp)
  {
    RunOfThree(s, RequestLoad, ServeLoad, DeliverLoad);
    assert Do(Do(s, RequestLoad), ServeLoad) == s.(load := Received(Stored(s)));
  }

  /**
   * A list refresh drops the body of a closed document with nothing pending
   * and an earlier update time, and touches no other.
   */
  lemma ListRefreshDropsBody(s: State, entry: Entry)
    requires s.bodies != [] && entry in s.lists
    ensures
      var b, after := s.browser, Do(s, MergeList(entry)).browser;
      if s.focused || b.pending.Some? || entry.updated <= b.stamp then after == b
      else
        && after.text == "" && !after.loaded && after.version == Some(entry.version) && after.stamp == entry.updated
        && after.conflict == b.conflict && after.pending.None?
  {
  }

  /** Sharing and starring move the update time, here and there, and nothing else. */
  lemma TouchesMoveTimesOnly(s: State, at: Time)
    requires s.bodies != []
    ensures Do(s, Touch(at)) == s.(updated := at)
    ensures Do(s, Restamp(at)) == s.(browser := s.browser.(stamp := at))
  {
  }
}
