/**
 * Runs of one tab on which it falls short of what it is for, from the document
 * list on, and what a background list refresh does to an open conflict or a
 * late answer.
 */
module EditorLosses {
  import opened Wrappers
  import opened EditorAutosave
  import opened EditorDraft

  // ----- A save already sent replaces theirs -----

  // Two edits are sent with the same version; the first is accepted and the
  // second refused, and the first answer comes last. A third is sent with the
  // version it brought, and then another document takes the pending slot.
  const LOADED: seq<Step> := [RequestLoad, ServeLoad, DeliverLoad]
  const TWO_SENT: seq<Step> := [Type("a"), Autosave, Type("b"), Autosave]
  const REFUSED: seq<Step> := [Process(0, 1), Process(1, 1), ReadCurrent(1)]
  const ANSWERED: seq<Step> := [Deliver(1), Deliver(0), Type("c"), Autosave]
  const OVERTAKEN: seq<Step> := [Focus(false), TypeElsewhere, Focus(true)]

  const FIRST := Save("a", Some(1), 0)
  const SECOND := Save("b", Some(1), 1)
  const THIRD := Save("c", Some(2), 2)
  const THEIRS := Copy("a", 2, 1)

  const AFTER_LOAD := State(
    Browser("x", Some(1), true, 0, None, false, 0, None), ["x"], 0, [], Idle, multiset{}, true, map[1 := "x"], None,
    0, 0)

  const AFTER_TWO := State(
    Browser("b", Some(1), true, 0, Some(Pending("b", 1)), true, 2, None), ["x"], 0,
    [Flight(FIRST, Travelling), Flight(SECOND, Travelling)], Idle, multiset{}, true, map[1 := "x"], Some("b"),
    1, 0)

  const AFTER_REFUSAL := AFTER_TWO.(
    bodies := ["x", "a"], updated := 1, accepted := 1,
    flights := [Flight(FIRST, Replied(Accepted(2, 1))), Flight(SECOND, Replied(Conflicted(THEIRS)))])

  const AFTER_THIRD := State(
    Browser("c", Some(2), true, 1, Some(Pending("c", 2)), true, 3, Some(Conflict("b", THEIRS))), ["x", "a"], 1,
    [Flight(FIRST, Delivered), Flight(SECOND, Delivered), Flight(THIRD, Travelling)],
    Idle, multiset{}, true, map[1 := "x", 2 := "a"], Some("c"), 2, 1)

  const OVERTAKING := AFTER_THIRD.(browser := AFTER_THIRD.browser.(pending := None))

  /**
   * With nothing pending, a save that is already travelling can still put the
   * discarded draft in the place of theirs.
   */
  lemma SentSaveReplacesTheirs()
    ensures
      var s := Run(Listed(["x"], Entry(1, 0)), LOADED + TWO_SENT + REFUSED + ANSWERED + OVERTAKEN);
      && s.focused && s.browser.pending.None?
      && s.browser.conflict.Some? && s.browser.conflict.value.current == Stored(s)
      && Run(s, [TakeTheirs, Process(2, 2)]).browser.text == "a"
      && Run(s, [TakeTheirs, Process(2, 2)]).bodies == ["x", "a", "c"]
  {
    ReachesOvertaking();
    var taken := Do(OVERTAKING, TakeTheirs);
    RunOfTwo(OVERTAKING, TakeTheirs, Process(2, 2));
    assert InProgress(taken, 2, Travelling) && taken.flights[2].save == THIRD;
  }

  lemma ReachesOvertaking()
    ensures Run(Listed(["x"], Entry(1, 0)), LOADED + TWO_SENT + REFUSED + ANSWERED + OVERTAKEN) == OVERTAKING
  {
    var start := Listed(["x"], Entry(1, 0));
    Loads();
    TwoAreSent();
    SecondIsRefused();
    ThirdIsSent();
    SlotIsTaken();
    RunSplits(start, LOADED + TWO_SENT + REFUSED + ANSWERED, OVERTAKEN);
    RunSplits(start, LOADED + TWO_SENT + REFUSED, ANSWERED);
    RunSplits(start, LOADED + TWO_SENT, REFUSED);
    RunSplits(start, LOADED, TWO_SENT);
  }

  lemma Loads()
    ensures Run(Listed(["x"], Entry(1, 0)), LOADED) == AFTER_LOAD
  {
    RunOfThree(Listed(["x"], Entry(1, 0)), RequestLoad, ServeLoad, DeliverLoad);
  }

  lemma TwoAreSent()
    ensures Run(AFTER_LOAD, TWO_SENT) == AFTER_TWO
  {
    RunOfFour(AFTER_LOAD, Type("a"), Autosave, Type("b"), Autosave);
    assert Do(Do(AFTER_LOAD, Type("a")), Autosave).flights == [Flight(FIRST, Travelling)];
  }

  lemma SecondIsRefused()
    ensures Run(AFTER_TWO, REFUSED) == AFTER_REFUSAL
  {
    RunOfThree(AFTER_TWO, Process(0, 1), Process(1, 1), ReadCurrent(1));
    assert Do(AFTER_TWO, Process(0, 1)).bodies == ["x", "a"];
  }

  lemma ThirdIsSent()
    ensures Run(AFTER_REFUSAL, ANSWERED) == AFTER_THIRD
  {
    RunOfFour(AFTER_REFUSAL, Deliver(1), Deliver(0), Type("c"), Autosave);
    var answered := Do(Do(AFTER_REFUSAL, Deliver(1)), Deliver(0));
    assert answered.flights == [Flight(FIRST, Delivered), Flight(SECOND, Delivered)];
    assert answered.known == map[1 := "x", 2 := "a"];
  }

  lemma SlotIsTaken()
    ensures Run(AFTER_THIRD, OVERTAKEN) == OVERTAKING
  {
    RunOfThree(AFTER_THIRD, Focus(false), TypeElsewhere, Focus(true));
  }

  // ----- A draft nothing will save -----

  const SLOT_TAKEN: seq<Step> := [Type("a"), Focus(false), TypeElsewhere]
  const SAVE_LOST: seq<Step> := [Type("a"), Autosave, Lose(0), Deliver(0)]

  const AFTER_SLOT := AFTER_LOAD.(
    browser := Browser("a", Some(1), true, 0, None, false, 1, None), focused := false, typed := Some("a"))

  const AFTER_LOSS := AFTER_LOAD.(
    browser := Browser("a", Some(1), true, 0, Some(Pending("a", 0)), true, 1, None), typed := Some("a"),
    flights := [Flight(FIRST, Delivered)])

  /** Leave the document and type elsewhere before the autosave fires: the draft is never sent. */
  lemma SlotTakenRun()
    ensures
      var start := Listed(["x"], Entry(1, 0));
      && !NeverLetsGo(start, LOADED + SLOT_TAKEN)
      && NothingUnderWay(Run(start, LOADED + SLOT_TAKEN)) && Run(start, LOADED + SLOT_TAKEN).typed == Some("a")
  {
    Loads();
    RunSplits(Listed(["x"], Entry(1, 0)), LOADED, SLOT_TAKEN);
    RunOfThree(AFTER_LOAD, Type("a"), Focus(false), TypeElsewhere);
    assert Run(AFTER_LOAD, SLOT_TAKEN) == AFTER_SLOT;
    LetGoOnTheWay(LOADED + SLOT_TAKEN);
  }

  /** A save that fails stays pending and is not sent again. */
  lemma LostSaveRun()
    ensures
      var start := Listed(["x"], Entry(1, 0));
      && !NeverLetsGo(start, LOADED + SAVE_LOST)
      && NothingUnderWay(Run(start, LOADED + SAVE_LOST)) && Run(start, LOADED + SAVE_LOST).browser.pending.Some?
  {
    Loads();
    RunSplits(Listed(["x"], Entry(1, 0)), LOADED, SAVE_LOST);
    RunOfFour(AFTER_LOAD, Type("a"), Autosave, Lose(0), Deliver(0));
    assert Do(Do(AFTER_LOAD, Type("a")), Autosave).flights == [Flight(FIRST, Travelling)];
    assert Run(AFTER_LOAD, SAVE_LOST) == AFTER_LOSS;
    LetGoOnTheWay(LOADED + SAVE_LOST);
  }

  lemma LetGoOnTheWay(steps: seq<Step>)
    requires forall i :: 0 <= i < |steps| ==> !steps[i].MergeList?
    requires !DraftInHand(Run(Listed(["x"], Entry(1, 0)), steps))
    ensures !NeverLetsGo(Listed(["x"], Entry(1, 0)), steps)
  {
    var start := Listed(["x"], Entry(1, 0));
    ListedIsSound(["x"], Entry(1, 0));
    TextIsAsTyped(start, steps);
    DraftIsInHandUnlessLetGo(start, steps);
    if InHandThroughout(start, steps) { InHandAtTheEnd(start, steps); }
  }

  lemma {:induction false} InHandAtTheEnd(s: State, steps: seq<Step>)
    requires s.bodies != [] && InHandThroughout(s, steps)
    ensures DraftInHand(Run(s, steps))
    decreases |steps|
  {
    if steps != [] { InHandAtTheEnd(Do(s, steps[0]), steps[1..]); }
  }

  // ----- What a background refresh does to a refused draft -----

  // Leave the document, let the list refresh in the background, come back.
  function AwayAndBack(s: State): State
    requires s.bodies != []
  {
    Run(s, [Focus(false), FetchList, MergeList(Entry(|s.bodies|, s.updated)), Focus(true)])
  }

  // Let the body load if it has to, then choose to keep mine.
  function KeptOnceLoaded(s: State): State
    requires s.bodies != []
  {
    Run(s, [RequestLoad, ServeLoad, DeliverLoad, KeepMine])
  }

  /**
   * A refused draft does not survive a background refresh that finds a later
   * update time: choosing to keep mine then queues the server's text, and
   * otherwise the draft.
   */
  lemma RefreshLosesRefusedDraft(s: State)
    requires s.bodies != [] && s.browser.loaded && s.load.Idle? && s.browser.pending.None? && s.browser.conflict.Some?
    ensures
      var kept := KeptOnceLoaded(AwayAndBack(s)).browser;
      && kept.pending.Some?
      && kept.pending.value.body == if s.updated > s.browser.stamp then Stored(s).body else s.browser.text
  {
    var back := s.(focused := true, browser := RelistedIfLater(s));
    BodyIsDropped(s);
    LoadedTextIsKept(back);
    assert KeptOnceLoaded(AwayAndBack(s)) == KeptOnceLoaded(back);
  }

  function RelistedIfLater(s: State): Browser {
    if s.updated > s.browser.stamp then Relisted(s.browser, Entry(|s.bodies|, s.updated)) else s.browser
  }

  lemma BodyIsDropped(s: State)
    requires s.bodies != [] && s.browser.pending.None?
    ensures AwayAndBack(s) == s.(focused := true, browser := RelistedIfLater(s))
  {
    var entry := Entry(|s.bodies|, s.updated);
    RunOfFour(s, Focus(false), FetchList, MergeList(entry), Focus(true));
    var listed := s.(focused := false, lists := s.lists + multiset{entry});
    assert Do(Do(s, Focus(false)), FetchList) == listed;
    MergesOwnEntry(s, entry);
  }

  lemma MergesOwnEntry(s: State, entry: Entry)
    requires s.bodies != [] && s.browser.pending.None? && entry == Entry(|s.bodies|, s.updated)
    ensures
      var listed := s.(focused := false, lists := s.lists + multiset{entry});
      Do(listed, MergeList(entry)) == s.(focused := false, browser := RelistedIfLater(s))
  {
    var listed := s.(focused := false, lists := s.lists + multiset{entry});
    assert entry in listed.lists && listed.lists - multiset{entry} == s.lists;
  }

  lemma LoadedTextIsKept(s: State)
    requires s.bodies != [] && s.load.Idle? && s.focused && s.browser.conflict.Some?
    ensures KeptOnceLoaded(s).browser == KeptMine(if s.browser.loaded then s.browser else Showing(s.browser, Stored(s)))
  {
    RunOfFour(s, RequestLoad, ServeLoad, DeliverLoad, KeepMine);
    var served := Do(Do(s, RequestLoad), ServeLoad);
    assert served == if s.browser.loaded then s else s.(load := Received(Stored(s)));
  }

  // The first save is refused because somebody else wrote.
  const SENT_IN_VAIN: seq<Step> := [Type("a"), Autosave, OtherWrite("y", 1), Process(0, 2)]
  const ANSWERED_NO: seq<Step> := [ReadCurrent(0), Deliver(0)]

  const AFTER_REJECTION := State(
    Browser("a", Some(1), true, 0, Some(Pending("a", 0)), true, 1, None), ["x", "y"], 1, [Flight(FIRST, Rejected)],
    Idle, multiset{}, true, map[1 := "x"], Some("a"), 0, 0)

  const AFTER_CONFLICT := AFTER_REJECTION.(
    browser := Browser("a", Some(1), true, 0, None, true, 1, Some(Conflict("a", Copy("y", 2, 1)))),
    flights := [Flight(FIRST, Delivered)], known := map[1 := "x", 2 := "y"])

  /** A run on which "keep mine" publishes theirs. */
  lemma RefusedDraftRun()
    ensures
      var refused := Run(Listed(["x"], Entry(1, 0)), LOADED + SENT_IN_VAIN + ANSWERED_NO);
      && refused.browser.conflict.Some? && refused.browser.text == "a"
      && KeptOnceLoaded(AwayAndBack(refused)).browser.pending.Some?
      && KeptOnceLoaded(AwayAndBack(refused)).browser.pending.value.body == "y"
  {
    ReachesConflict();
    RefreshLosesRefusedDraft(AFTER_CONFLICT);
  }

  lemma ReachesConflict()
    ensures Run(Listed(["x"], Entry(1, 0)), LOADED + SENT_IN_VAIN + ANSWERED_NO) == AFTER_CONFLICT
  {
    var start := Listed(["x"], Entry(1, 0));
    Loads();
    IsRejected();
    IsToldTheConflict();
    RunSplits(start, LOADED + SENT_IN_VAIN, ANSWERED_NO);
    RunSplits(start, LOADED, SENT_IN_VAIN);
  }

  lemma IsRejected()
    ensures Run(AFTER_LOAD, SENT_IN_VAIN) == AFTER_REJECTION
  {
    RunOfFour(AFTER_LOAD, Type("a"), Autosave, OtherWrite("y", 1), Process(0, 2));
    var sent := Do(Do(AFTER_LOAD, Type("a")), Autosave);
    assert sent.flights == [Flight(FIRST, Travelling)];
  }

  lemma IsToldTheConflict()
    ensures Run(AFTER_REJECTION, ANSWERED_NO) == AFTER_CONFLICT
  {
    RunOfTwo(AFTER_REJECTION, ReadCurrent(0), Deliver(0));
    assert Do(AFTER_REJECTION, ReadCurrent(0)).flights == [Flight(FIRST, Replied(Conflicted(Copy("y", 2, 1))))];
  }

  // ----- What it does to a late answer -----

  // A save is accepted, and answered only after the writer has moved on to
  // another document and the list has refreshed.
  function AnsweredAfterRefresh(s: State, i: nat, at: Time): State
    requires s.bodies != []
  {
    var away := Run(s, [Process(i, at), Focus(false), TypeElsewhere]);
    Run(away, [FetchList, MergeList(Entry(|away.bodies|, away.updated)), Deliver(i)])
  }

  /**
   * That late answer marks the document as loaded although its body was
   * dropped: under the version of the accepted save it shows as empty.
   */
  lemma LateAnswerShowsEmpty(s: State, i: nat, at: Time)
    requires Sound(s) && InProgress(s, i, Travelling) && s.flights[i].save.ifVersion == Some(|s.bodies|)
    ensures
      var after, save := AnsweredAfterRefresh(s, i, at), s.flights[i].save;
      && Stored(after) == Copy(save.body, |s.bodies| + 1, at)
      && after.browser.version == Some(|s.bodies| + 1) && after.browser.loaded
      && after.browser.text == (if at > s.browser.stamp then "" else s.browser.text)
      && (BodyIsReal(after) <==> after.browser.text == save.body || s.typed == Some(after.browser.text))
  {
    AcceptedAndLeft(s, i, at);
    var away := AcceptedAway(s, i, at);
    MergedThenAnswered(away, i);
  }

  function AcceptedAway(s: State, i: nat, at: Time): State
    requires i < |s.flights|
  {
    Moved(s, i, Replied(Accepted(|s.bodies| + 1, at)))
    .(bodies := s.bodies + [s.flights[i].save.body], updated := at,
      accepted := Max(s.accepted, s.flights[i].save.edit + 1),
      focused := false, browser := s.browser.(pending := None))
  }

  lemma AcceptedAndLeft(s: State, i: nat, at: Time)
    requires s.bodies != [] && InProgress(s, i, Travelling) && s.flights[i].save.ifVersion == Some(|s.bodies|)
    ensures Run(s, [Process(i, at), Focus(false), TypeElsewhere]) == AcceptedAway(s, i, at)
  {
    RunOfThree(s, Process(i, at), Focus(false), TypeElsewhere);
    IsAccepted(s, i, at);
    Leaves(AcceptedAway(s, i, at).(focused := s.focused, browser := s.browser));
  }

  lemma IsAccepted(s: State, i: nat, at: Time)
    requires s.bodies != [] && InProgress(s, i, Travelling) && s.flights[i].save.ifVersion == Some(|s.bodies|)
    ensures Do(s, Process(i, at)) == AcceptedAway(s, i, at).(focused := s.focused, browser := s.browser)
  {
  }

  lemma Leaves(s: State)
    requires s.bodies != []
    ensures Do(Do(s, Focus(false)), TypeElsewhere) == s.(focused := false, browser := s.browser.(pending := None))
  {
  }

  lemma MergedThenAnswered(away: State, i: nat)
    requires away.bodies != [] && !away.focused && away.browser.pending.None?
    requires InProgress(away, i, Replied(Accepted(|away.bodies|, away.updated)))
    ensures
      var entry := Entry(|away.bodies|, away.updated);
      Run(away, [FetchList, MergeList(entry), Deliver(i)]) == AnsweredLate(away, i)
  {
    var entry := Entry(|away.bodies|, away.updated);
    RunOfThree(away, FetchList, MergeList(entry), Deliver(i));
    MergesAway(away, entry);
    IsAnswered(away.(browser := RelistedIfLater(away)), i);
  }

  lemma MergesAway(away: State, entry: Entry)
    requires away.bodies != [] && !away.focused && away.browser.pending.None?
    requires entry == Entry(|away.bodies|, away.updated)
    ensures Do(Do(away, FetchList), MergeList(entry)) == away.(browser := RelistedIfLater(away))
  {
    MergesOwnEntry(away, entry);
    assert Do(away, FetchList) == away.(focused := false, lists := away.lists + multiset{entry});
  }

  lemma IsAnswered(s: State, i: nat)
    requires s.bodies != [] && s.browser.pending.None? && InProgress(s, i, Replied(Accepted(|s.bodies|, s.updated)))
    ensures
      var save, b := s.flights[i].save, s.browser;
      Do(s, Deliver(i)) == Moved(s, i, Delivered).(
        browser := b.(version := Some(|s.bodies|), loaded := true, stamp := Later(b.stamp, s.updated)),
        known := s.known[|s.bodies| := save.body])
  {
  }

  function AnsweredLate(away: State, i: nat): State
    requires i < |away.flights|
  {
    var save, version := away.flights[i].save, |away.bodies|;
    var b := RelistedIfLater(away);
    Moved(away, i, Delivered)
    .(browser := b.(version := Some(version), loaded := true, stamp := Later(b.stamp, away.updated)),
      known := away.known[version := save.body])
  }

  const ONE_SENT: seq<Step> := [Type("a"), Autosave]

  const AFTER_ONE := AFTER_LOAD.(
    browser := Browser("a", Some(1), true, 0, Some(Pending("a", 0)), true, 1, None), typed := Some("a"),
    flights := [Flight(FIRST, Travelling)])

  /** A run on which a loaded document shows as empty under a version that is not. */
  lemma LateAnswerRun()
    ensures
      var sent := Run(Listed(["x"], Entry(1, 0)), LOADED + ONE_SENT);
      var after := AnsweredAfterRefresh(sent, 0, 1);
      && !BodyIsReal(after) && after.browser.loaded && after.browser.text == ""
      && after.browser.version == Some(2) && Stored(after) == Copy("a", 2, 1)
  {
    var start := Listed(["x"], Entry(1, 0));
    Loads();
    ListedIsSound(["x"], Entry(1, 0));
    SoundAlways(start, LOADED + ONE_SENT);
    RunSplits(start, LOADED, ONE_SENT);
    RunOfTwo(AFTER_LOAD, Type("a"), Autosave);
    assert Run(AFTER_LOAD, ONE_SENT) == AFTER_ONE;
    LateAnswerShowsEmpty(AFTER_ONE, 0, 1);
  }
}
