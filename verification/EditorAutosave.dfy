/**
 * One document open in a browser tab, autosaving against the versioned store
 * while agents and other tabs write it too. Saves overlap and are answered in
 * any order or not at all.
 */
module EditorAutosave {
  import opened Wrappers

  type Text = string
  type Time = int

  // ----- The browser's side -----

  // A copy of the document as the server held it at some version.
  datatype Copy = Copy(body: Text, version: nat, updated: Time)

  // The document's row in the list, which carries no body.
  datatype Entry = Entry(version: nat, updated: Time)

  // Every edit replaces the pending save by a new one, told apart by `edit`.
  datatype Pending = Pending(body: Text, edit: nat)

  datatype Conflict = Conflict(draft: Text, current: Copy)

  datatype Browser = Browser(
    text: Text,
    version: Option<nat>,
    loaded: bool,
    stamp: Time,                   // the update time this tab knows of
    pending: Option<Pending>,
    sent: bool,                    // the autosave of the pending edit has fired
    edits: nat,
    conflict: Option<Conflict>)

  datatype Save = Save(body: Text, ifVersion: Option<nat>, edit: nat)

  datatype Reply = Accepted(version: nat, updated: Time) | Conflicted(current: Copy) | Failed

  function Edited(b: Browser, text: Text): Browser {
    b.(text := text, pending := Some(Pending(text, b.edits)), sent := false, edits := b.edits + 1)
  }

  // The version is read when the save is sent, not when the edit was made.
  function NextSave(b: Browser): Save
    requires b.pending.Some?
  {
    Save(b.pending.value.body, b.version, b.pending.value.edit)
  }

  predicate Superseded(b: Browser, save: Save) {
    b.pending.None? || b.pending.value.edit != save.edit
  }

  // The pending edit waits for its autosave, which will carry the version in hand.
  predicate Unsent(b: Browser) { b.pending.Some? && !b.sent }

  function Later(a: Time, b: Time): Time { if b > a then b else a }

  function Answered(b: Browser, save: Save, reply: Reply): Browser {
    match reply
    case Accepted(version, updated) =>
      // A superseded answer still records what the server now holds.
      var noted := b.(version := Some(version), loaded := true, stamp := Later(b.stamp, updated));
      if Superseded(b, save) then noted else noted.(text := save.body, pending := None)
    case Conflicted(current) =>
      if Superseded(b, save) then b else b.(conflict := Some(Conflict(save.body, current)), pending := None)
    case Failed => b
  }

  function TookTheirs(b: Browser): Browser
    requires b.conflict.Some?
  {
    var current := b.conflict.value.current;
    b.(text := current.body, version := Some(current.version), loaded := true, stamp := current.updated,
       conflict := None)
  }

  function KeptMine(b: Browser): Browser
    requires b.conflict.Some?
  {
    var current := b.conflict.value.current;
    Edited(b.(version := Some(current.version), loaded := true, stamp := current.updated, conflict := None), b.text)
  }

  function Showing(b: Browser, copy: Copy): Browser {
    b.(text := copy.body, version := Some(copy.version), loaded := true, stamp := Later(b.stamp, copy.updated))
  }

  // The list shows a later update of a document in the background: its body is
  // dropped, to be fetched again when the document is next opened.
  function Relisted(b: Browser, entry: Entry): Browser {
    b.(text := "", version := Some(entry.version), loaded := false, stamp := entry.updated)
  }

  class EditorSession {
    var text: Text
    var version: Option<nat>
    var loaded: bool
    var stamp: Time
    var pending: Option<Pending>
    var sent: bool
    var edits: nat
    var conflict: Option<Conflict>

    ghost function State(): Browser
      reads this
    {
      Browser(text, version, loaded, stamp, pending, sent, edits, conflict)
    }

    method UpdateBody(body: Text)
      modifies this
      ensures State() == Edited(old(State()), body)
    {
      SetPendingSave(body);
      text := body;
    }

    method SetPendingSave(body: Text)
      modifies this`pending, this`sent, this`edits
      ensures pending == Some(Pending(body, old(edits))) && !sent && edits == old(edits) + 1
    {
      pending, sent, edits := Some(Pending(body, edits)), false, edits + 1;
    }

    method FireAutosave() returns (save: Option<Save>)
      modifies this`sent
      ensures save == if pending.None? || old(sent) then None else Some(NextSave(old(State())))
      ensures State() == if save.None? then old(State()) else old(State()).(sent := true)
    {
      if pending.None? || sent {
        return None;
      }
      save := Some(Save(pending.value.body, version, pending.value.edit));
      sent := true;
    }

    method SaveAnswered(save: Save, reply: Reply)
      modifies this
      ensures State() == Answered(old(State()), save, reply)
    {
      var cancelled := pending.None? || pending.value.edit != save.edit;
      match reply {
        case Accepted(saved, updated) =>
          version, loaded, stamp := Some(saved), true, Later(stamp, updated);
          if !cancelled {
            text := save.body;
            pending := None;
          }
        case Conflicted(current) =>
          if !cancelled {
            conflict := Some(Conflict(save.body, current));
            pending := None;
          }
        case Failed =>
      }
    }

    method ResolveConflict(overwrite: bool)
      modifies this
      ensures State() == if old(conflict).None? then old(State())
                         else if overwrite then KeptMine(old(State())) else TookTheirs(old(State()))
    {
      if conflict.None? {
        return;
      }
      var current := conflict.value.current;
      conflict := None;
      version, loaded, stamp := Some(current.version), true, current.updated;
      if overwrite {
        SetPendingSave(text);
      } else {
        text := current.body;
      }
    }

    method BodyLoaded(copy: Copy)
      modifies this
      ensures State() == Showing(old(State()), copy)
    {
      text, version, loaded, stamp := copy.body, Some(copy.version), true, Later(stamp, copy.updated);
    }

    // The open document and one with a pending save are left alone.
    method ListRefreshed(entry: Entry, active: bool)
      modifies this
      ensures State() == if active || old(pending).Some? || entry.updated <= old(stamp) then old(State())
                         else Relisted(old(State()), entry)
    {
      if active || pending.Some? || entry.updated <= stamp {
        return;
      }
      text, version, loaded, stamp := "", Some(entry.version), false, entry.updated;
    }
  }

  // ----- Browser, network and server together -----

  // A save on its way: not yet processed, refused but its conflict copy not
  // yet read, answered, or done with. When the connection breaks before the
  // server has processed it, it goes on unheard.
  datatype Progress = Travelling | Rejected | Replied(reply: Reply) | Delivered | Unheard

  datatype Flight = Flight(save: Save, progress: Progress)

  datatype Load = Idle | Requested | Received(copy: Copy)

  datatype State = State(
    browser: Browser,
    bodies: seq<Text>,             // the server's content, one body per version
    updated: Time,                 // the server's update time
    flights: seq<Flight>,
    load: Load,
    lists: multiset<Entry>,        // list refreshes on their way back
    focused: bool,
    known: map<nat, Text>,         // versions whose content this browser was given to show, or wrote
    typed: Option<Text>,           // the last text typed since theirs was last taken
    draft: nat,                    // the number of the edit that typed it
    accepted: nat)                 // one above the latest edit the server accepted

  datatype Step =
    | Type(text: Text)
    | TypeElsewhere
    | Focus(on: bool)
    | Autosave
    | Process(flight: nat, at: Time)
    | ReadCurrent(flight: nat)
    | Lose(flight: nat)
    | Cut(flight: nat)
    | Deliver(flight: nat)
    | OtherWrite(body: Text, at: Time)
    | Touch(at: Time)
    | Restamp(at: Time)
    | TakeTheirs
    | KeepMine
    | RequestLoad
    | ServeLoad
    | DeliverLoad
    | FetchList
    | MergeList(entry: Entry)

  function Stored(s: State): Copy
    requires s.bodies != []
  {
    Copy(s.bodies[|s.bodies| - 1], |s.bodies|, s.updated)
  }

  predicate InProgress(s: State, i: nat, p: Progress) { i < |s.flights| && s.flights[i].progress == p }

  // The server has still to process the save.
  predicate Travels(s: State, i: nat) { InProgress(s, i, Travelling) || InProgress(s, i, Unheard) }

  predicate Acceptable(s: State, save: Save) { save.ifVersion.None? || save.ifVersion.value == |s.bodies| }

  function Max(a: nat, b: nat): nat { if a < b then b else a }

  function Moved(s: State, i: nat, p: Progress): State
    requires i < |s.flights|
  {
    s.(flights := s.flights[i := s.flights[i].(progress := p)])
  }

  // A step that is not possible in a state leaves it unchanged.
  function Do(s: State, step: Step): (after: State)
    requires s.bodies != []
    ensures s.bodies <= after.bodies
  {
    var b := s.browser;
    match step
    case Type(text) =>
      // The editor shows a document only once its body is loaded.
      if b.loaded && s.focused then s.(browser := Edited(b, text), typed := Some(text), draft := b.edits) else s
    case TypeElsewhere =>
      // An edit of another document takes the one pending slot.
      if s.focused then s else s.(browser := b.(pending := None))
    case Focus(on) => s.(focused := on)
    case Autosave =>
      if Unsent(b)
      then s.(browser := b.(sent := true), flights := s.flights + [Flight(NextSave(b), Travelling)])
      else s
    case Process(i, at) =>
      if !Travels(s, i) then s
      else
        var save, heard := s.flights[i].save, s.flights[i].progress.Travelling?;
        if Acceptable(s, save)
        then Moved(s, i, if heard then Replied(Accepted(|s.bodies| + 1, at)) else Delivered)
             .(bodies := s.bodies + [save.body], updated := at, accepted := Max(s.accepted, save.edit + 1))
        else Moved(s, i, if heard then Rejected else Delivered)
    case ReadCurrent(i) => if InProgress(s, i, Rejected) then Moved(s, i, Replied(Conflicted(Stored(s)))) else s
    case Lose(i) =>
      if i < |s.flights| && !s.flights[i].progress.Delivered?
      then Moved(s, i, if s.flights[i].progress.Unheard? then Delivered else Replied(Failed))
      else s
    case Cut(i) =>
      if InProgress(s, i, Travelling)
      then s.(flights := Moved(s, i, Replied(Failed)).flights + [Flight(s.flights[i].save, Unheard)])
      else s
    case Deliver(i) =>
      if i < |s.flights| && s.flights[i].progress.Replied? then
        var save, reply := s.flights[i].save, s.flights[i].progress.reply;
        var learned := if reply.Conflicted? && Superseded(b, save) then s.known else Learned(s.known, save, reply);
        Moved(s, i, Delivered).(browser := Answered(b, save, reply), known := learned)
      else s
    case OtherWrite(body, at) => s.(bodies := s.bodies + [body], updated := at)
    // Starring or sharing moves the update time and nothing else; sharing from
    // this tab also stamps its copy, by its own clock.
    case Touch(at) => s.(updated := at)
    case Restamp(at) => s.(browser := b.(stamp := at))
    case TakeTheirs =>
      if b.conflict.Some? && s.focused then s.(browser := TookTheirs(b), typed := None) else s
    case KeepMine =>
      if b.conflict.Some? && s.focused then s.(browser := KeptMine(b)) else s
    case RequestLoad => if !b.loaded && s.load.Idle? then s.(load := Requested) else s
    case ServeLoad => if s.load.Requested? then s.(load := Received(Stored(s))) else s
    case DeliverLoad =>
      if s.load.Received?
      then s.(browser := Showing(b, s.load.copy), load := Idle,
              known := s.known[s.load.copy.version := s.load.copy.body])
      else s
    case FetchList => s.(lists := s.lists + multiset{Entry(|s.bodies|, s.updated)})
    case MergeList(entry) =>
      if entry in s.lists
      then s.(lists := s.lists - multiset{entry}, browser := if MergeApplies(s, entry) then Relisted(b, entry) else b)
      else s
  }

  predicate MergeApplies(s: State, entry: Entry) {
    entry in s.lists && !s.focused && s.browser.pending.None? && entry.updated > s.browser.stamp
  }

  function Learned(known: map<nat, Text>, save: Save, reply: Reply): map<nat, Text> {
    match reply
    case Accepted(version, _) => known[version := save.body]
    case Conflicted(current) => known[current.version := current.body]
    case Failed => known
  }

  function Run(s: State, steps: seq<Step>): (after: State)
    requires s.bodies != []
    ensures s.bodies <= after.bodies
    decreases |steps|
  {
    if steps == [] then s else Run(Do(s, steps[0]), steps[1..])
  }

  predicate Genuine(bodies: seq<Text>, version: nat, body: Text) {
    1 <= version <= |bodies| && bodies[version - 1] == body
  }

  predicate GenuineReply(bodies: seq<Text>, save: Save, reply: Reply) {
    match reply
    case Accepted(version, _) => Genuine(bodies, version, save.body)
    case Conflicted(current) => Genuine(bodies, current.version, current.body)
    case Failed => true
  }

  predicate Knows(s: State, version: Option<nat>) { version.None? || version.value in s.known }

  ghost predicate Sound(s: State) {
    && s.bodies != []
    && (forall v :: v in s.known ==> Genuine(s.bodies, v, s.known[v]))
    && (s.browser.loaded ==> Knows(s, s.browser.version))
    && (s.browser.pending.Some? ==> s.browser.loaded && s.browser.pending.value.edit < s.browser.edits)
    && (s.browser.conflict.Some? ==>
          var current := s.browser.conflict.value.current;
          Knows(s, Some(current.version)) && Genuine(s.bodies, current.version, current.body))
    && (s.load.Received? ==> Genuine(s.bodies, s.load.copy.version, s.load.copy.body))
    && (forall i :: 0 <= i < |s.flights| ==> FlightSound(s, s.flights[i]))
  }

  predicate FlightSound(s: State, f: Flight) {
    && Knows(s, f.save.ifVersion)
    && (f.progress.Replied? ==> GenuineReply(s.bodies, f.save, f.progress.reply))
    && f.save.edit < s.browser.edits
    && (!Superseded(s.browser, f.save) ==> s.browser.sent && f.save.body == s.browser.pending.value.body)
  }

  lemma StepStaysSound(s: State, step: Step)
    requires Sound(s)
    ensures Sound(Do(s, step))
  {
    match step
    case Autosave => AutosaveStaysSound(s);
    case Process(i, _) => FlightMoves(s, step, i);
    case ReadCurrent(i) => FlightMoves(s, step, i);
    case Lose(i) => FlightMoves(s, step, i);
    case Cut(i) => CutStaysSound(s, i);
    case Deliver(i) => DeliveryStaysSound(s, i);
    case OtherWrite(_, _) => ServerMoves(s, step);
    case TakeTheirs => ChoiceMoves(s, step);
    case KeepMine => ChoiceMoves(s, step);
    case _ => BrowserMoves(s, step);
  }

  lemma AutosaveStaysSound(s: State)
    requires Sound(s)
    ensures Sound(Do(s, Autosave))
  {
    var after := Do(s, Autosave);
    forall i | 0 <= i < |after.flights| ensures FlightSound(after, after.flights[i]) {
      if i < |s.flights| { assert FlightSound(s, s.flights[i]); }
    }
  }

  lemma CutStaysSound(s: State, i: nat)
    requires Sound(s)
    ensures Sound(Do(s, Cut(i)))
  {
    var after := Do(s, Cut(i));
    forall j | 0 <= j < |after.flights| ensures FlightSound(after, after.flights[j]) {
      if j < |s.flights| { assert FlightSound(s, s.flights[j]); } else { assert FlightSound(s, s.flights[i]); }
    }
  }

  lemma FlightMoves(s: State, step: Step, i: nat)
    requires Sound(s) && ((step.Process? && step.flight == i) || step == ReadCurrent(i) || step == Lose(i))
    ensures Sound(Do(s, step))
  {
    var after := Do(s, step);
    assert after.browser == s.browser && after.known == s.known && after.load == s.load;
    if after != s {
      FlightAdvances(s, step, i);
    }
  }

  lemma FlightAdvances(s: State, step: Step, i: nat)
    requires Sound(s) && ((step.Process? && step.flight == i) || step == ReadCurrent(i) || step == Lose(i))
             && Do(s, step) != s
    ensures forall j :: 0 <= j < |Do(s, step).flights| ==> FlightSound(Do(s, step), Do(s, step).flights[j])
  {
    var after := Do(s, step);
    forall j | 0 <= j < |after.flights| ensures FlightSound(after, after.flights[j]) {
      assert FlightSound(s, s.flights[j]);
      assert j != i ==> after.flights[j] == s.flights[j];
    }
  }

  lemma ServerMoves(s: State, step: Step)
    requires Sound(s) && step.OtherWrite?
    ensures Sound(Do(s, step))
  {
    forall i | 0 <= i < |s.flights| ensures FlightSound(Do(s, step), s.flights[i]) {
      assert FlightSound(s, s.flights[i]);
    }
  }

  lemma ChoiceMoves(s: State, step: Step)
    requires Sound(s) && (step.TakeTheirs? || step.KeepMine?)
    ensures Sound(Do(s, step))
  {
    var after := Do(s, step);
    FlightsStaySound(s, step);
    assert after.flights == s.flights && after.bodies == s.bodies && after.known == s.known;
  }

  lemma BrowserMoves(s: State, step: Step)
    requires Sound(s) && !step.Autosave? && !step.Process? && !step.ReadCurrent? && !step.Lose? && !step.Cut?
    requires !step.Deliver? && !step.OtherWrite? && !step.TakeTheirs? && !step.KeepMine?
    ensures Sound(Do(s, step))
  {
    var after := Do(s, step);
    FlightsStaySound(s, step);
    assert after.flights == s.flights && after.bodies == s.bodies;
  }

  lemma FlightsStaySound(s: State, step: Step)
    requires Sound(s) && !step.Autosave? && !step.Process? && !step.ReadCurrent? && !step.Lose? && !step.Cut?
    requires !step.Deliver? && !step.OtherWrite?
    ensures forall i :: 0 <= i < |s.flights| ==> FlightSound(Do(s, step), s.flights[i])
  {
    var after := Do(s, step);
    assert after.bodies == s.bodies && forall v :: v in s.known ==> v in after.known;
    assert after.browser.edits >= s.browser.edits;
    forall i | 0 <= i < |s.flights| ensures FlightSound(after, s.flights[i]) {
      assert FlightSound(s, s.flights[i]);
      if !Superseded(after.browser, s.flights[i].save) { assert after.browser.pending == s.browser.pending; }
    }
  }

  lemma DeliveryStaysSound(s: State, i: nat)
    requires Sound(s)
    ensures Sound(Do(s, Deliver(i)))
  {
    if i >= |s.flights| || !s.flights[i].progress.Replied? { return; }
    var after := Do(s, Deliver(i));
    DeliveryLearns(s, i);
    assert after.bodies == s.bodies && after.load == s.load;
    forall j | 0 <= j < |after.flights| ensures FlightSound(after, after.flights[j]) {
      assert FlightSound(s, s.flights[j]);
    }
  }

  // What a delivery adds to the versions known is genuine, and it is enough
  // for the version and the conflict it leaves behind.
  lemma DeliveryLearns(s: State, i: nat)
    requires Sound(s) && i < |s.flights| && s.flights[i].progress.Replied?
    ensures
      var after := Do(s, Deliver(i));
      && (forall v :: v in s.known ==> v in after.known)
      && (forall v :: v in after.known ==> Genuine(s.bodies, v, after.known[v]))
      && (after.browser.loaded ==> Knows(after, after.browser.version))
  {
    assert FlightSound(s, s.flights[i]);
  }

  lemma {:induction false} SoundAlways(s: State, steps: seq<Step>)
    requires Sound(s)
    ensures Sound(Run(s, steps))
    decreases |steps|
  {
    if steps != [] {
      StepStaysSound(s, steps[0]);
      SoundAlways(Do(s, steps[0]), steps[1..]);
    }
  }

  // A document the list has shown, with its version but not its body.
  function Listed(bodies: seq<Text>, entry: Entry): State {
    State(Browser("", Some(entry.version), false, entry.updated, None, false, 0, None),
          bodies, entry.updated, [], Idle, multiset{}, true, map[], None, 0, 0)
  }

  // The server refuses the save, or puts it in the place of content that this
  // browser had received or written itself.
  predicate ReplacesOnlyKnown(s: State, i: nat, at: Time)
    requires s.bodies != [] && Travels(s, i) && s.flights[i].save.ifVersion.Some?
  {
    var save := s.flights[i].save;
    Do(s, Process(i, at)).bodies != s.bodies ==>
      && Do(s, Process(i, at)).bodies == s.bodies + [save.body]
      && save.ifVersion.value in s.known
      && s.known[save.ifVersion.value] == s.bodies[|s.bodies| - 1]
  }

  /**
   * No silent overwrite: whenever the server accepts an autosave that carried
   * a version, the content it replaces is one this browser had received or
   * written itself.
   */
  lemma NoSilentOverwrite(start: State, steps: seq<Step>, i: nat, at: Time)
    requires Sound(start)
    requires Travels(Run(start, steps), i) && Run(start, steps).flights[i].save.ifVersion.Some?
    ensures ReplacesOnlyKnown(Run(start, steps), i, at)
  {
    SoundAlways(start, steps);
    AcceptedSaveReplacesKnown(Run(start, steps), i, at);
  }

  /** Once the browser knows a version, every autosave carries one. */
  lemma {:induction false} AutosavesCarryAVersion(s: State, steps: seq<Step>)
    requires s.bodies != [] && s.browser.version.Some?
    requires forall f :: f in s.flights ==> f.save.ifVersion.Some?
    ensures forall f :: f in Run(s, steps).flights ==> f.save.ifVersion.Some?
    decreases |steps|
  {
    if steps != [] {
      SaveCarriesAVersion(s, steps[0]);
      AutosavesCarryAVersion(Do(s, steps[0]), steps[1..]);
    }
  }

  lemma SaveCarriesAVersion(s: State, step: Step)
    requires s.bodies != [] && s.browser.version.Some?
    requires forall f :: f in s.flights ==> f.save.ifVersion.Some?
    ensures Do(s, step).browser.version.Some?
    ensures forall f :: f in Do(s, step).flights ==> f.save.ifVersion.Some?
  {
    SavesStay(s, step);
  }

  // Every save on its way was on its way before, or is the autosave just sent.
  lemma SavesStay(s: State, step: Step)
    requires s.bodies != []
    ensures forall f :: f in Do(s, step).flights ==>
              (exists g :: g in s.flights && g.save == f.save)
              || (step.Autosave? && f.save.ifVersion == s.browser.version)
  {
    var after := Do(s, step);
    forall i | 0 <= i < |after.flights|
      ensures (exists g :: g in s.flights && g.save == after.flights[i].save)
              || (step.Autosave? && after.flights[i].save.ifVersion == s.browser.version)
    {
      if i < |s.flights| { assert s.flights[i] in s.flights && after.flights[i].save == s.flights[i].save; }
    }
  }

  lemma AcceptedSaveReplacesKnown(s: State, i: nat, at: Time)
    requires Sound(s) && Travels(s, i) && s.flights[i].save.ifVersion.Some?
    ensures ReplacesOnlyKnown(s, i, at)
  {
    assert FlightSound(s, s.flights[i]);
  }

  // ----- Short runs -----

  lemma RunOfOne(s: State, step: Step)
    requires s.bodies != []
    ensures Run(s, [step]) == Do(s, step)
  {
    assert [step][1..] == [];
    assert Run(Do(s, step), []) == Do(s, step);
  }

  lemma RunOfTwo(s: State, first: Step, second: Step)
    requires s.bodies != []
    ensures Run(s, [first, second]) == Do(Do(s, first), second)
  {
    assert [first, second][1..] == [second];
    RunOfOne(Do(s, first), second);
  }

  lemma RunOfThree(s: State, first: Step, second: Step, third: Step)
    requires s.bodies != []
    ensures Run(s, [first, second, third]) == Do(Do(Do(s, first), second), third)
  {
    assert [first, second, third][1..] == [second, third];
    RunOfTwo(Do(s, first), second, third);
  }

  lemma RunOfFour(s: State, first: Step, second: Step, third: Step, fourth: Step)
    requires s.bodies != []
    ensures Run(s, [first, second, third, fourth]) == Do(Do(Do(Do(s, first), second), third), fourth)
  {
    assert [first, second, third, fourth][1..] == [second, third, fourth];
    RunOfThree(Do(s, first), second, third, fourth);
  }

  lemma {:induction false} RunSplits(s: State, first: seq<Step>, second: seq<Step>)
    requires s.bodies != []
    ensures Run(s, first + second) == Run(Run(s, first), second)
    decreases |first|
  {
    if first == [] {
      assert first + second == second;
    } else {
      assert (first + second)[1..] == first[1..] + second;
      RunSplits(Do(s, first[0]), first[1..], second);
    }
  }
}
