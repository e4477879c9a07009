/**
 * What becomes of the writer's words: when the text on screen is the draft,
 * when the draft is saved or still on its way, and when a document shows a
 * body other than the version it claims.
 */
module EditorDraft {
  import opened Wrappers
  import opened EditorAutosave

  // Everything a run from the document list starts with.
  lemma ListedIsSound(bodies: seq<Text>, entry: Entry)
    requires bodies != []
    ensures
      var s := Listed(bodies, entry);
      Sound(s) && DraftSound(s) && LoadsFirst(s) && SavesSound(s) && DraftInHand(s) && BodyIsReal(s)
  {
  }

  // ----- Superseded saves -----

  /**
   * A save that another edit has superseded stays superseded over every run:
   * whenever its answer arrives, it touches neither the text nor what is
   * pending nor the conflict.
   */
  lemma {:induction false} SupersededAnswerKeepsText(s: State, steps: seq<Step>, i: nat)
    requires Sound(s) && i < |s.flights| && Superseded(s.browser, s.flights[i].save)
    ensures
      var later := Run(s, steps);
      && i < |later.flights| && later.flights[i].save == s.flights[i].save
      && Superseded(later.browser, later.flights[i].save)
      && var answered := Do(later, Deliver(i)).browser;
      && answered.text == later.browser.text
      && answered.pending == later.browser.pending
      && answered.conflict == later.browser.conflict
      // Only an accepted one is noted at all: it brings its version.
      && (i < |later.flights| && later.flights[i].progress.Replied? ==>
            var reply := later.flights[i].progress.reply;
            if reply.Accepted? then answered.version == Some(reply.version) && answered.loaded
            else answered == later.browser)
    decreases |steps|
  {
    if steps != [] {
      StaysSuperseded(s, steps[0], i);
      StepStaysSound(s, steps[0]);
      SupersededAnswerKeepsText(Do(s, steps[0]), steps[1..], i);
    }
  }

  // A later edit has a later number.
  lemma StaysSuperseded(s: State, step: Step, i: nat)
    requires Sound(s) && i < |s.flights| && Superseded(s.browser, s.flights[i].save)
    ensures i < |Do(s, step).flights| && Do(s, step).flights[i].save == s.flights[i].save
    ensures Superseded(Do(s, step).browser, s.flights[i].save)
  {
    assert FlightSound(s, s.flights[i]);
    NewEditIsLater(s, step);
  }

  lemma NewEditIsLater(s: State, step: Step)
    requires s.bodies != []
    ensures
      var b := Do(s, step).browser;
      b.pending.None? || b.pending == s.browser.pending || b.pending.value.edit == s.browser.edits
  {
  }

  // ----- The draft stays on screen -----

  predicate DraftShown(s: State) { s.typed.Some? ==> s.browser.text == s.typed.value }

  predicate DraftSound(s: State) {
    && DraftShown(s)
    && (s.typed.Some? && s.browser.pending.Some? ==> s.browser.pending.value.body == s.typed.value)
  }

  // The two steps that take a draft off the screen: a background refresh that
  // applies to the closed document, and a body arriving over what was typed.
  predicate Drops(s: State, step: Step) {
    && s.typed.Some?
    && match step
       case MergeList(entry) => MergeApplies(s, entry) && s.typed.value != ""
       case DeliverLoad => s.load.Received? && s.load.copy.body != s.typed.value
       case _ => false
  }

  lemma StepKeepsDraft(s: State, step: Step)
    requires Sound(s) && DraftSound(s)
    ensures DraftShown(Do(s, step)) <==> !Drops(s, step)
    ensures !Drops(s, step) ==> DraftSound(Do(s, step))
  {
    if step.Deliver? { DeliveryKeepsDraft(s, step.flight); }
  }

  lemma DeliveryKeepsDraft(s: State, i: nat)
    requires Sound(s) && DraftSound(s)
    ensures DraftSound(Do(s, Deliver(i)))
  {
    if i < |s.flights| { assert FlightSound(s, s.flights[i]); }
  }

  ghost predicate ShownThroughout(s: State, steps: seq<Step>)
    requires s.bodies != []
    decreases |steps|
  {
    DraftShown(s) && (steps != [] ==> ShownThroughout(Do(s, steps[0]), steps[1..]))
  }

  ghost predicate NeverDrops(s: State, steps: seq<Step>)
    requires s.bodies != []
    decreases |steps|
  {
    steps == [] || (!Drops(s, steps[0]) && NeverDrops(Do(s, steps[0]), steps[1..]))
  }

  /**
   * The text is the last text typed, from the first step of a run to the last
   * and until the writer takes theirs, exactly if no refresh applies to the
   * closed document and no body arrives late.
   */
  lemma {:induction false} DraftStaysUnlessDropped(s: State, steps: seq<Step>)
    requires Sound(s) && DraftSound(s)
    ensures ShownThroughout(s, steps) <==> NeverDrops(s, steps)
    ensures NeverDrops(s, steps) ==> DraftSound(Run(s, steps))
    decreases |steps|
  {
    if steps != [] {
      StepKeepsDraft(s, steps[0]);
      StepStaysSound(s, steps[0]);
      if !Drops(s, steps[0]) {
        DraftStaysUnlessDropped(Do(s, steps[0]), steps[1..]);
      } else {
        assert !ShownThroughout(Do(s, steps[0]), steps[1..]);
      }
    }
  }

  // Without background refreshes a document is loaded before anything else
  // happens to it, and only once.
  predicate LoadsFirst(s: State) {
    && (s.typed.Some? || s.browser.conflict.Some? || s.flights != [] ==> s.browser.loaded)
    && (s.browser.loaded ==> s.load.Idle?)
  }

  lemma LoadsStayFirst(s: State, step: Step)
    requires Sound(s) && LoadsFirst(s) && !step.MergeList?
    ensures LoadsFirst(Do(s, step)) && !Drops(s, step)
  {
  }

  /**
   * Typing, autosaves, conflicts, choices and loads leave the text as last
   * typed, whatever order the answers come in, until the writer takes theirs.
   */
  lemma {:induction false} TextIsAsTyped(s: State, steps: seq<Step>)
    requires Sound(s) && DraftSound(s) && LoadsFirst(s)
    requires forall i :: 0 <= i < |steps| ==> !steps[i].MergeList?
    ensures ShownThroughout(s, steps) && NeverDrops(s, steps)
    ensures Run(s, steps).typed.Some? ==> Run(s, steps).browser.text == Run(s, steps).typed.value
    decreases |steps|
  {
    if steps != [] {
      StepKeepsDraft(s, steps[0]);
      StepStaysSound(s, steps[0]);
      LoadsStayFirst(s, steps[0]);
      TextIsAsTyped(Do(s, steps[0]), steps[1..]);
    }
  }

  // ----- The draft is saved, or on its way -----

  // The server accepted a save of the draft.
  predicate Saved(s: State) { s.draft < s.accepted }

  // The server may still process the save, or its answer is still to come.
  predicate UnderWay(p: Progress) { p.Travelling? || p.Rejected? || (p.Replied? && !p.reply.Failed?) }

  // The save of the pending edit, as long as the tab still waits for it.
  predicate Current(s: State, i: nat) {
    i < |s.flights| && UnderWay(s.flights[i].progress) && !Superseded(s.browser, s.flights[i].save)
  }

  // Every edit is sent once, what was accepted was an edit of this tab, and
  // whatever was sent since the draft was typed carries it.
  ghost predicate SavesSound(s: State) {
    && s.accepted <= s.browser.edits
    && (forall i, j ::
          0 <= i < j < |s.flights| && UnderWay(s.flights[i].progress) && UnderWay(s.flights[j].progress) ==>
            s.flights[i].save.edit != s.flights[j].save.edit)
    && (forall i :: 0 <= i < |s.flights| && s.flights[i].progress.Replied? && s.flights[i].progress.reply.Accepted? ==>
          s.flights[i].save.edit < s.accepted)
    && (s.typed.Some? ==>
          && s.draft < s.browser.edits
          && (s.browser.pending.Some? ==> s.draft <= s.browser.pending.value.edit)
          && (forall i :: 0 <= i < |s.flights| && s.draft <= s.flights[i].save.edit ==>
                s.flights[i].save.body == s.typed.value)
          && (Saved(s) ==> s.typed.value in s.bodies))
  }

  lemma SavesStaySound(s: State, step: Step)
    requires Sound(s) && DraftSound(s) && SavesSound(s) && !Drops(s, step)
    ensures SavesSound(Do(s, step))
  {
    match step
    case Autosave => SendingStaysSound(s);
    case Cut(i) => CuttingStaysSound(s, i);
    case Process(i, at) => if Travels(s, i) { ProcessingStaysSound(s, i, at); }
    case ReadCurrent(i) => if i < |s.flights| { FlightStaysSound(s, step, i); }
    case Lose(i) => if i < |s.flights| { FlightStaysSound(s, step, i); }
    case Deliver(i) => if i < |s.flights| { FlightStaysSound(s, step, i); }
    case _ => EditingStaysSound(s, step);
  }

  lemma SendingStaysSound(s: State)
    requires Sound(s) && DraftSound(s) && SavesSound(s)
    ensures SavesSound(Do(s, Autosave))
  {
    var after := Do(s, Autosave);
    forall i | 0 <= i < |s.flights| ensures after.flights[i] == s.flights[i] && FlightSound(s, s.flights[i]) {}
  }

  lemma CuttingStaysSound(s: State, i: nat)
    requires Sound(s) && SavesSound(s)
    ensures SavesSound(Do(s, Cut(i)))
  {
  }

  // A flight moves on: the others stay, and it comes under way no more.
  predicate MovesOn(s: State, after: State, i: nat) {
    && i < |s.flights| == |after.flights|
    && after.flights[i].save == s.flights[i].save
    && (forall j :: 0 <= j < |s.flights| && j != i ==> after.flights[j] == s.flights[j])
    && (UnderWay(after.flights[i].progress) ==> UnderWay(s.flights[i].progress))
    && after.typed == s.typed && after.draft == s.draft && after.browser.edits == s.browser.edits
    && after.browser.pending in {s.browser.pending, None}
    && s.bodies <= after.bodies
  }

  lemma FlightMovesOn(s: State, step: Step, i: nat)
    requires s.bodies != [] && i < |s.flights|
    requires (step.Process? && step.flight == i) || step == ReadCurrent(i) || step == Lose(i) || step == Deliver(i)
    ensures MovesOn(s, Do(s, step), i)
    ensures !step.Deliver? ==> Do(s, step).browser == s.browser
    ensures !step.Process? ==> Do(s, step).accepted == s.accepted
  {
  }

  lemma MovingOnStaysSound(s: State, after: State, i: nat)
    requires SavesSound(s) && MovesOn(s, after, i) && after.accepted == s.accepted
    requires after.flights[i].progress.Replied? && after.flights[i].progress.reply.Accepted? ==>
               after.flights[i] == s.flights[i]
    ensures SavesSound(after)
  {
  }

  lemma FlightStaysSound(s: State, step: Step, i: nat)
    requires Sound(s) && SavesSound(s) && i < |s.flights|
    requires step == ReadCurrent(i) || step == Lose(i) || step == Deliver(i)
    ensures SavesSound(Do(s, step))
  {
    FlightMovesOn(s, step, i);
    MovingOnStaysSound(s, Do(s, step), i);
  }

  lemma ProcessingStaysSound(s: State, i: nat, at: Time)
    requires Sound(s) && SavesSound(s) && Travels(s, i)
    ensures SavesSound(Do(s, Process(i, at)))
  {
    FlightMovesOn(s, Process(i, at), i);
    var after := Do(s, Process(i, at));
    assert FlightSound(s, s.flights[i]);
    if Acceptable(s, s.flights[i].save) {
      AcceptingStaysSound(s, after, i);
    } else {
      MovingOnStaysSound(s, after, i);
    }
  }

  lemma AcceptingStaysSound(s: State, after: State, i: nat)
    requires SavesSound(s) && MovesOn(s, after, i) && s.flights[i].save.edit < s.browser.edits
    requires after.accepted == Max(s.accepted, s.flights[i].save.edit + 1)
    requires after.bodies == s.bodies + [s.flights[i].save.body]
    ensures SavesSound(after)
  {
    assert after.bodies[|s.bodies|] == s.flights[i].save.body;
  }

  lemma EditingStaysSound(s: State, step: Step)
    requires Sound(s) && SavesSound(s) && !step.Autosave? && !step.Cut? && !step.Process? && !step.ReadCurrent?
    requires !step.Lose? && !step.Deliver?
    ensures SavesSound(Do(s, step))
  {
    assert forall i :: 0 <= i < |s.flights| ==> FlightSound(s, s.flights[i]);
    EditsOnlyGrow(s, step);
    StaysSoundWhileEditing(s, Do(s, step));
  }

  // The flights stay. A draft typed by this step is newer than all of them.
  predicate EditsGrow(s: State, after: State) {
    && after.flights == s.flights && after.accepted == s.accepted && s.bodies <= after.bodies
    && s.browser.edits <= after.browser.edits
    && (after.typed.Some? ==>
          && after.draft < after.browser.edits
          && (after.browser.pending.Some? ==> after.draft <= after.browser.pending.value.edit)
          && ((after.typed == s.typed && after.draft == s.draft) || after.draft == s.browser.edits))
  }

  lemma EditsOnlyGrow(s: State, step: Step)
    requires Sound(s) && SavesSound(s) && !step.Autosave? && !step.Cut? && !step.Process? && !step.ReadCurrent?
    requires !step.Lose? && !step.Deliver?
    ensures EditsGrow(s, Do(s, step))
  {
  }

  lemma StaysSoundWhileEditing(s: State, after: State)
    requires SavesSound(s) && EditsGrow(s, after)
    requires forall i :: 0 <= i < |s.flights| ==> FlightSound(s, s.flights[i])
    ensures SavesSound(after)
  {
  }

  // Saved, in a conflict the writer has to settle, waiting for its autosave, or
  // sent and not yet answered. A pending save that failed is none of these: it
  // is not sent again before the next edit.
  ghost predicate DraftInHand(s: State) {
    s.typed.Some? ==>
      || Saved(s)
      || s.browser.conflict.Some?
      || Unsent(s.browser) || exists i: nat :: Current(s, i)
  }

  // The steps that let go of a draft neither saved nor in a conflict: another
  // document takes the one pending slot, or its save fails.
  predicate LetsGo(s: State, step: Step) {
    && s.typed.Some? && !Saved(s) && s.browser.conflict.None?
    && match step
       case TypeElsewhere => !s.focused && s.browser.pending.Some?
       case Lose(i) => Current(s, i)
       case Cut(i) => Current(s, i) && InProgress(s, i, Travelling)
       case _ => false
  }

  lemma StepKeepsInHand(s: State, step: Step)
    requires Sound(s) && SavesSound(s) && DraftInHand(s)
    ensures DraftInHand(Do(s, step)) <==> !LetsGo(s, step)
  {
    match step
    case Autosave => SendingKeepsInHand(s);
    case Cut(i) => CuttingKeepsInHand(s, i);
    case Process(i, _) => FlightKeepsInHand(s, step, i);
    case ReadCurrent(i) => FlightKeepsInHand(s, step, i);
    case Lose(i) => FlightKeepsInHand(s, step, i);
    case Deliver(i) => DeliveryKeepsInHand(s, i);
    case _ => EditingKeepsInHand(s, step);
  }

  lemma SendingKeepsInHand(s: State)
    requires Sound(s) && DraftInHand(s)
    ensures DraftInHand(Do(s, Autosave))
  {
    var after := Do(s, Autosave);
    if s.browser.pending.Some? && !s.browser.sent {
      assert Current(after, |s.flights|);
    }
  }

  lemma EditingKeepsInHand(s: State, step: Step)
    requires Sound(s) && DraftInHand(s) && !step.Autosave? && !step.Cut? && !step.Process? && !step.ReadCurrent?
    requires !step.Lose? && !step.Deliver?
    ensures DraftInHand(Do(s, step)) <==> !LetsGo(s, step)
  {
    var after := Do(s, step);
    assert after.flights == s.flights && after.accepted == s.accepted;
    if after.browser.pending == s.browser.pending {
      assert forall i :: Current(s, i) ==> Current(after, i);
    }
  }

  lemma FlightKeepsInHand(s: State, step: Step, i: nat)
    requires Sound(s) && SavesSound(s) && DraftInHand(s)
    requires (step.Process? && step.flight == i) || step == ReadCurrent(i) || step == Lose(i)
    ensures DraftInHand(Do(s, step)) <==> !LetsGo(s, step)
  {
    if i < |s.flights| {
      var after := Do(s, step);
      FlightMovesOn(s, step, i);
      OnlyOneMoves(s, after, i);
      assert FlightSound(s, s.flights[i]);
      assert step.Lose? || !Current(s, i) || Current(after, i) || Saved(after);
    }
  }

  lemma OnlyOneMoves(s: State, after: State, i: nat)
    requires SavesSound(s) && MovesOn(s, after, i) && after.browser == s.browser
    ensures forall j :: j != i ==> (Current(s, j) <==> Current(after, j))
    ensures Current(s, i) ==> forall j :: j != i ==> !Current(s, j)
  {
    assert forall j: nat :: Current(s, j) ==> j < |s.flights| && s.flights[j].save.edit == s.browser.pending.value.edit;
  }

  lemma CuttingKeepsInHand(s: State, i: nat)
    requires Sound(s) && SavesSound(s) && DraftInHand(s)
    ensures DraftInHand(Do(s, Cut(i))) <==> !LetsGo(s, Cut(i))
  {
    if InProgress(s, i, Travelling) {
      var after := Do(s, Cut(i));
      var replied := Moved(s, i, Replied(Failed));
      OnlyOneMoves(s, replied, i);
      assert forall j :: Current(after, j) <==> Current(replied, j);
      assert FlightSound(s, s.flights[i]);
    }
  }

  lemma DeliveryKeepsInHand(s: State, i: nat)
    requires Sound(s) && SavesSound(s) && DraftInHand(s)
    ensures DraftInHand(Do(s, Deliver(i)))
  {
    var after := Do(s, Deliver(i));
    if i < |s.flights| {
      assert FlightSound(s, s.flights[i]);
      if after.browser.pending == s.browser.pending {
        assert forall j :: Current(s, j) && j != i ==> Current(after, j);
      }
    }
  }

  ghost predicate InHandThroughout(s: State, steps: seq<Step>)
    requires s.bodies != []
    decreases |steps|
  {
    DraftInHand(s) && (steps != [] ==> InHandThroughout(Do(s, steps[0]), steps[1..]))
  }

  ghost predicate NeverLetsGo(s: State, steps: seq<Step>)
    requires s.bodies != []
    decreases |steps|
  {
    steps == [] || (!LetsGo(s, steps[0]) && NeverLetsGo(Do(s, steps[0]), steps[1..]))
  }

  /**
   * As long as the draft stays on screen, it is accepted by the server, in a
   * conflict the writer still has to settle, or on its way there, exactly until
   * its save fails or another document takes the pending slot before that.
   */
  lemma {:induction false} DraftIsInHandUnlessLetGo(s: State, steps: seq<Step>)
    requires Sound(s) && DraftSound(s) && SavesSound(s) && DraftInHand(s) && NeverDrops(s, steps)
    ensures InHandThroughout(s, steps) <==> NeverLetsGo(s, steps)
    ensures SavesSound(Run(s, steps))
    decreases |steps|
  {
    if steps != [] {
      var next := Do(s, steps[0]);
      StepKeepsInHand(s, steps[0]);
      SavesStaySound(s, steps[0]);
      StepKeepsDraft(s, steps[0]);
      StepStaysSound(s, steps[0]);
      if !LetsGo(s, steps[0]) {
        DraftIsInHandUnlessLetGo(next, steps[1..]);
      } else {
        assert !InHandThroughout(next, steps[1..]);
        SavesSoundAlways(next, steps[1..]);
      }
    }
  }

  lemma {:induction false} SavesSoundAlways(s: State, steps: seq<Step>)
    requires Sound(s) && DraftSound(s) && SavesSound(s) && NeverDrops(s, steps)
    ensures SavesSound(Run(s, steps))
    decreases |steps|
  {
    if steps != [] {
      SavesStaySound(s, steps[0]);
      StepKeepsDraft(s, steps[0]);
      StepStaysSound(s, steps[0]);
      SavesSoundAlways(Do(s, steps[0]), steps[1..]);
    }
  }

  // Nothing that could still save the draft: it is not waiting to be sent, and
  // no save of it has still to be processed.
  predicate NothingUnderWay(s: State) {
    && !Unsent(s.browser) && !Saved(s)
    && forall i :: 0 <= i < |s.flights| && Travels(s, i) ==> s.flights[i].save.edit < s.draft
  }

  /** Such a draft is never saved, unless the writer types again or keeps mine in a conflict. */
  lemma {:induction false} LetGoIsNeverSaved(s: State, steps: seq<Step>)
    requires s.bodies != [] && NothingUnderWay(s)
    requires forall i :: 0 <= i < |steps| ==> !steps[i].Type? && !steps[i].KeepMine?
    ensures !Saved(Run(s, steps)) && Run(s, steps).draft == s.draft
    decreases |steps|
  {
    if steps != [] {
      NothingGetsUnderWay(s, steps[0]);
      LetGoIsNeverSaved(Do(s, steps[0]), steps[1..]);
    }
  }

  // What travels afterwards travelled before.
  ghost predicate NoneSent(s: State, after: State) {
    forall i: nat :: Travels(after, i) ==> exists j: nat :: Travels(s, j) && s.flights[j].save == after.flights[i].save
  }

  lemma NothingGetsUnderWay(s: State, step: Step)
    requires s.bodies != [] && NothingUnderWay(s) && !step.Type? && !step.KeepMine?
    ensures NothingUnderWay(Do(s, step)) && Do(s, step).draft == s.draft
  {
    StepSendsNone(s, step);
    OnlyProcessingAccepts(s, step);
    StillNothing(s, Do(s, step));
  }

  lemma StillNothing(s: State, after: State)
    requires NothingUnderWay(s) && NoneSent(s, after) && after.draft == s.draft && !Saved(after)
    requires !Unsent(after.browser)
    ensures NothingUnderWay(after)
  {
  }

  lemma OnlyProcessingAccepts(s: State, step: Step)
    requires s.bodies != [] && !step.Type? && !step.KeepMine?
    ensures Do(s, step).draft == s.draft
    ensures Unsent(Do(s, step).browser) ==> Unsent(s.browser)
    ensures Do(s, step).accepted == s.accepted ||
            (step.Process? && Travels(s, step.flight) &&
             Do(s, step).accepted == Max(s.accepted, s.flights[step.flight].save.edit + 1))
  {
  }

  lemma StepSendsNone(s: State, step: Step)
    requires s.bodies != [] && !Unsent(s.browser)
    ensures NoneSent(s, Do(s, step))
  {
    var after := Do(s, step);
    forall i: nat | Travels(after, i)
      ensures exists j: nat :: Travels(s, j) && s.flights[j].save == after.flights[i].save
    {
      var j := TravelsFrom(s, step, i);
    }
  }

  lemma TravelsFrom(s: State, step: Step, i: nat) returns (j: nat)
    requires s.bodies != [] && !Unsent(s.browser) && Travels(Do(s, step), i)
    ensures Travels(s, j) && s.flights[j].save == Do(s, step).flights[i].save
  {
    j := if i < |s.flights| then i else step.flight;
  }

  // ----- Bodies that are not the version they claim -----

  // A loaded document shows the last text typed, or the content of the version
  // it will send with its next save.
  predicate BodyIsReal(s: State) {
    var b := s.browser;
    b.loaded ==>
      || s.typed == Some(b.text)
      || (b.version.Some? && b.version.value in s.known && s.known[b.version.value] == b.text)
  }

  // The two steps that set a version the text on screen does not belong to: the
  // answer of a superseded save, and keeping mine when mine is not on screen.
  predicate Mislabels(s: State, step: Step) {
    && s.typed != Some(s.browser.text)
    && match step
       case Deliver(i) =>
         && i < |s.flights| && s.flights[i].progress.Replied? && s.flights[i].progress.reply.Accepted?
         && Superseded(s.browser, s.flights[i].save) && s.flights[i].save.body != s.browser.text
       case KeepMine =>
         && s.browser.conflict.Some? && s.focused
         && s.browser.conflict.value.current.body != s.browser.text
       case _ => false
  }

  lemma StepKeepsBodyReal(s: State, step: Step)
    requires Sound(s) && BodyIsReal(s)
    ensures BodyIsReal(Do(s, step)) <==> !Mislabels(s, step)
  {
    match step
    case Deliver(i) => DeliveryKeepsBodyReal(s, i);
    case TakeTheirs => ChoiceKeepsBodyReal(s, step);
    case KeepMine => ChoiceKeepsBodyReal(s, step);
    case Autosave => FlightsKeepBodyReal(s, step);
    case Process(_, _) => FlightsKeepBodyReal(s, step);
    case ReadCurrent(_) => FlightsKeepBodyReal(s, step);
    case Lose(_) => FlightsKeepBodyReal(s, step);
    case Cut(_) => FlightsKeepBodyReal(s, step);
    case _ => OtherStepKeepsBodyReal(s, step);
  }

  lemma FlightsKeepBodyReal(s: State, step: Step)
    requires Sound(s) && BodyIsReal(s)
    requires step.Autosave? || step.Process? || step.ReadCurrent? || step.Lose? || step.Cut?
    ensures BodyIsReal(Do(s, step))
  {
  }

  lemma OtherStepKeepsBodyReal(s: State, step: Step)
    requires Sound(s) && BodyIsReal(s)
    requires !step.Autosave? && !step.Process? && !step.ReadCurrent? && !step.Lose? && !step.Cut?
    requires !step.Deliver? && !step.TakeTheirs? && !step.KeepMine?
    ensures BodyIsReal(Do(s, step))
  {
  }

  lemma ChoiceKeepsBodyReal(s: State, step: Step)
    requires Sound(s) && BodyIsReal(s) && (step.TakeTheirs? || step.KeepMine?)
    ensures BodyIsReal(Do(s, step)) <==> !Mislabels(s, step)
  {
  }

  lemma DeliveryKeepsBodyReal(s: State, i: nat)
    requires Sound(s) && BodyIsReal(s)
    ensures BodyIsReal(Do(s, Deliver(i))) <==> !Mislabels(s, Deliver(i))
  {
    if i >= |s.flights| || !s.flights[i].progress.Replied? { return; }
    var after := Do(s, Deliver(i));
    assert FlightSound(s, s.flights[i]);
    assert forall v :: v in s.known ==> v in after.known && after.known[v] == s.known[v];
  }

  ghost predicate RealThroughout(s: State, steps: seq<Step>)
    requires s.bodies != []
    decreases |steps|
  {
    BodyIsReal(s) && (steps != [] ==> RealThroughout(Do(s, steps[0]), steps[1..]))
  }

  ghost predicate NeverMislabels(s: State, steps: seq<Step>)
    requires s.bodies != []
    decreases |steps|
  {
    steps == [] || (!Mislabels(s, steps[0]) && NeverMislabels(Do(s, steps[0]), steps[1..]))
  }

  /**
   * Throughout a run, a loaded document shows the last text typed or exactly
   * the content of the version in hand, unless and only unless a superseded
   * save is answered, or mine is kept, while another text is on screen.
   */
  lemma {:induction false} LoadedBodyIsRealUnlessMislabelled(s: State, steps: seq<Step>)
    requires Sound(s) && BodyIsReal(s)
    ensures RealThroughout(s, steps) <==> NeverMislabels(s, steps)
    decreases |steps|
  {
    if steps != [] {
      StepKeepsBodyReal(s, steps[0]);
      StepStaysSound(s, steps[0]);
      if !Mislabels(s, steps[0]) {
        LoadedBodyIsRealUnlessMislabelled(Do(s, steps[0]), steps[1..]);
      } else {
        assert !RealThroughout(Do(s, steps[0]), steps[1..]);
      }
    }
  }
}
