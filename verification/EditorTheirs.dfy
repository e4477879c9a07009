/**
 * Taking the other side's version after a refused save: when it really
 * discards mine, on screen and on the server, whatever the system does next.
 */
module EditorTheirs {
  import opened Wrappers
  import opened EditorAutosave

  // What goes on while the writer stays in the document and does nothing.
  predicate ByTheSystem(step: Step) {
    || step.Autosave? || step.Process? || step.ReadCurrent? || step.Lose? || step.Cut? || step.Deliver?
    || step.OtherWrite? || step.Touch? || step.Restamp? || step.RequestLoad? || step.ServeLoad?
    || step.DeliverLoad? || step.FetchList? || step.MergeList?
  }

  predicate AllByTheSystem(steps: seq<Step>) { forall i :: 0 <= i < |steps| ==> ByTheSystem(steps[i]) }

  function WrittenByOthers(steps: seq<Step>): seq<Text> {
    if steps == [] then []
    else (if steps[0].OtherWrite? then [steps[0].body] else []) + WrittenByOthers(steps[1..])
  }

  lemma NoneByOthers(steps: seq<Step>)
    requires forall i :: 0 <= i < |steps| ==> !steps[i].OtherWrite?
    ensures WrittenByOthers(steps) == []
  {
  }

  // The same text on screen, and on the server nothing new but the writes of others.
  predicate Unchanged(s: State, after: State, others: seq<Text>) {
    after.browser.text == s.browser.text && after.bodies == s.bodies + others
  }

  ghost predicate Undisturbed(s: State, steps: seq<Step>)
    requires s.bodies != []
  {
    Unchanged(s, Run(s, steps), WrittenByOthers(steps))
  }

  predicate Harmless(s: State, f: Flight) {
    match f.progress
    // The server will refuse it.
    case Travelling => !Acceptable(s, f.save)
    case Unheard => !Acceptable(s, f.save)
    // Its answer keeps the text, and hands no unsent edit the newest version.
    case Replied(Accepted(version, _)) =>
      && (Superseded(s.browser, f.save) || f.save.body == s.browser.text)
      && (Unsent(s.browser) ==> version != |s.bodies|)
    case _ => true
  }

  // Nothing of mine can still reach the server or the screen.
  predicate NothingOfMineLeft(s: State) {
    && (forall i :: 0 <= i < |s.flights| ==> Harmless(s, s.flights[i]))
    && (Unsent(s.browser) ==> s.browser.version.Some? && s.browser.version.value != |s.bodies|)
    && !s.load.Requested?
    && (s.load.Received? ==>
          && s.load.copy.body == s.browser.text
          && (Unsent(s.browser) ==> s.load.copy.version != |s.bodies|))
  }

  lemma StepLeavesNothing(s: State, step: Step)
    requires Sound(s) && s.focused && s.browser.loaded && NothingOfMineLeft(s) && ByTheSystem(step)
    ensures LeavesNothing(s, step)
  {
    match step
    case Deliver(i) => DeliveryLeavesNothing(s, i);
    case Process(i, _) => FlightLeavesNothing(s, step, i);
    case ReadCurrent(i) => FlightLeavesNothing(s, step, i);
    case Lose(i) => FlightLeavesNothing(s, step, i);
    case Cut(i) => CutLeavesNothing(s, i);
    case _ => OtherStepLeavesNothing(s, step);
  }

  predicate LeavesNothing(s: State, step: Step)
    requires s.bodies != []
  {
    var after := Do(s, step);
    && after.focused && after.browser.loaded && NothingOfMineLeft(after)
    && Unchanged(s, after, if step.OtherWrite? then [step.body] else [])
  }

  lemma DeliveryLeavesNothing(s: State, i: nat)
    requires Sound(s) && s.focused && s.browser.loaded && NothingOfMineLeft(s)
    ensures LeavesNothing(s, Deliver(i))
  {
    var after := Do(s, Deliver(i));
    if i < |s.flights| { assert Harmless(s, s.flights[i]) && FlightSound(s, s.flights[i]); }
    forall j | 0 <= j < |after.flights| ensures Harmless(after, after.flights[j]) {
      assert Harmless(s, s.flights[j]);
    }
  }

  lemma FlightLeavesNothing(s: State, step: Step, i: nat)
    requires Sound(s) && s.focused && s.browser.loaded && NothingOfMineLeft(s)
    requires (step.Process? && step.flight == i) || step == ReadCurrent(i) || step == Lose(i)
    ensures LeavesNothing(s, step)
  {
    var after := Do(s, step);
    if i < |s.flights| { assert Harmless(s, s.flights[i]); }
    assert after.bodies == s.bodies && after.browser == s.browser;
    forall j | 0 <= j < |after.flights| ensures Harmless(after, after.flights[j]) {
      assert Harmless(s, s.flights[j]);
    }
  }

  lemma CutLeavesNothing(s: State, i: nat)
    requires Sound(s) && s.focused && s.browser.loaded && NothingOfMineLeft(s)
    ensures LeavesNothing(s, Cut(i))
  {
    var after := Do(s, Cut(i));
    forall j | 0 <= j < |after.flights| ensures Harmless(after, after.flights[j]) {
      if j < |s.flights| { assert Harmless(s, s.flights[j]); } else { assert Harmless(s, s.flights[i]); }
    }
  }

  lemma OtherStepLeavesNothing(s: State, step: Step)
    requires Sound(s) && s.focused && s.browser.loaded && NothingOfMineLeft(s) && ByTheSystem(step)
    requires !step.Deliver? && !step.Process? && !step.ReadCurrent? && !step.Lose? && !step.Cut?
    ensures LeavesNothing(s, step)
  {
    var after := Do(s, step);
    forall i | 0 <= i < |after.flights| ensures Harmless(after, after.flights[i]) {
      if i < |s.flights| {
        assert Harmless(s, s.flights[i]) && FlightSound(s, s.flights[i]);
      }
    }
  }

  /** With nothing of mine left, theirs stays on screen and on the server until somebody else writes. */
  lemma {:induction false} TheirsStays(s: State, steps: seq<Step>)
    requires Sound(s) && s.focused && s.browser.loaded && NothingOfMineLeft(s) && AllByTheSystem(steps)
    ensures Undisturbed(s, steps)
    decreases |steps|
  {
    if steps != [] {
      var next, rest := Do(s, steps[0]), steps[1..];
      StepLeavesNothing(s, steps[0]);
      StepStaysSound(s, steps[0]);
      assert ByTheSystem(steps[0]) && AllByTheSystem(rest);
      TheirsStays(next, rest);
      var first := if steps[0].OtherWrite? then [steps[0].body] else [];
      UnchangedTwice(s, next, Run(next, rest), first, WrittenByOthers(rest));
    }
  }

  lemma UnchangedTwice(s: State, next: State, after: State, first: seq<Text>, rest: seq<Text>)
    requires Unchanged(s, next, first) && Unchanged(next, after, rest)
    ensures Unchanged(s, after, first + rest)
  {
    assert s.bodies + (first + rest) == s.bodies + first + rest;
  }

  // Otherwise there is a run that brings mine back.
  lemma MineComesBack(s: State) returns (steps: seq<Step>)
    requires Sound(s) && s.focused && s.browser.loaded && s.browser.version.Some? && !NothingOfMineLeft(s)
    ensures AllByTheSystem(steps) && !Undisturbed(s, steps)
  {
    if s.load.Requested? || (s.load.Received? && s.load.copy.body != s.browser.text) {
      steps := BodyArrives(s);
    } else if i :| 0 <= i < |s.flights| && !Harmless(s, s.flights[i]) {
      steps := FlightLands(s, i);
    } else {
      steps := PendingGoesOut(s);
    }
  }

  lemma PendingGoesOut(s: State) returns (steps: seq<Step>)
    requires Sound(s) && Unsent(s.browser)
    requires
      || s.browser.version == Some(|s.bodies|)
      || (s.load.Received? && s.load.copy.version == |s.bodies|)
    ensures AllByTheSystem(steps) && !Undisturbed(s, steps)
  {
    var first := if s.load.Received? && s.load.copy.version == |s.bodies| then DeliverLoad else FetchList;
    var now := Do(s, first);
    assert now.flights == s.flights && now.bodies == s.bodies && Unsent(now.browser)
           && now.browser.version == Some(|s.bodies|);
    steps := AutosaveLands(s, first);
  }

  // A step that puts the newest version in the hands of an unsent edit.
  lemma AutosaveLands(s: State, first: Step) returns (steps: seq<Step>)
    requires s.bodies != [] && ByTheSystem(first) && !first.OtherWrite?
    requires
      var now := Do(s, first);
      && |now.flights| == |s.flights| && now.bodies == s.bodies && Unsent(now.browser)
      && now.browser.version == Some(|s.bodies|)
    ensures AllByTheSystem(steps) && !Undisturbed(s, steps)
  {
    steps := [first, Autosave, Process(|s.flights|, 0)];
    RunOfThree(s, first, Autosave, Process(|s.flights|, 0));
    NoneByOthers(steps);
    var sent := Do(Do(s, first), Autosave);
    assert InProgress(sent, |s.flights|, Travelling) && sent.flights[|s.flights|].save.ifVersion == Some(|s.bodies|);
    assert |Run(s, steps).bodies| == |s.bodies| + 1;
  }

  lemma FlightLands(s: State, i: nat) returns (steps: seq<Step>)
    requires Sound(s) && i < |s.flights| && !Harmless(s, s.flights[i])
    ensures AllByTheSystem(steps) && !Undisturbed(s, steps)
  {
    assert FlightSound(s, s.flights[i]);
    var f := s.flights[i];
    if f.progress.Travelling? || f.progress.Unheard? {
      steps := [Process(i, 0)];
      RunOfOne(s, Process(i, 0));
      NoneByOthers(steps);
    } else if !Superseded(s.browser, f.save) {
      steps := [Deliver(i)];
      RunOfOne(s, Deliver(i));
      NoneByOthers(steps);
    } else {
      steps := AutosaveLands(s, Deliver(i));
    }
  }

  lemma BodyArrives(s: State) returns (steps: seq<Step>)
    requires Sound(s) && (s.load.Requested? || (s.load.Received? && s.load.copy.body != s.browser.text))
    ensures AllByTheSystem(steps) && !Undisturbed(s, steps)
  {
    if s.load.Received? {
      steps := [DeliverLoad];
      RunOfOne(s, DeliverLoad);
      NoneByOthers(steps);
    } else {
      var other := OtherWrite(s.browser.text + "x", 0);
      steps := [other, ServeLoad, DeliverLoad];
      RunOfThree(s, other, ServeLoad, DeliverLoad);
      assert Run(s, steps).browser.text == s.browser.text + "x";
    }
  }

  /**
   * "Discard mine, load theirs" discards mine, whatever the system does next,
   * exactly if no save of this tab can still be accepted and no answer or body
   * under way changes the text. A pending edit survives the choice, and so does
   * a save that is travelling with the server's newest version.
   */
  lemma TakingTheirsDiscardsMine(s: State)
    requires Sound(s) && s.focused && s.browser.conflict.Some?
    ensures (forall steps :: AllByTheSystem(steps) ==> Undisturbed(Do(s, TakeTheirs), steps))
            <==> NothingOfMineLeft(Do(s, TakeTheirs))
  {
    var taken := Do(s, TakeTheirs);
    StepStaysSound(s, TakeTheirs);
    if NothingOfMineLeft(taken) {
      forall steps | AllByTheSystem(steps) ensures Undisturbed(taken, steps) {
        TheirsStays(taken, steps);
      }
    } else {
      var steps := MineComesBack(taken);
    }
  }
}
