/**
 * The search box: a debounced first page, further pages on demand, and only
 * the latest request may change what is shown. Requests are answered in any
 * order or not at all while the query, the user and the pause flag change.
 */
module EditorSearch {
  import opened Wrappers

  // User ids are UUIDs; the separator of the search key never occurs in one.
  type UserId = s: string | '\U{0000}' !in s witness ""
  type DocumentId = string

  const MAX_QUERY_LENGTH := 200

  // What the hook is called with; the query is already normalized.
  datatype Props = Props(user: UserId, query: string, paused: bool) {
    predicate Active() { user != "" && query != "" }

    predicate Invalid() { |query| > MAX_QUERY_LENGTH }

    function Key(): string { if Active() then user + "\U{0000}" + query else "" }

    predicate Searches() { Active() && !Invalid() && !paused }
  }

  // A document in a result, with the search that found it.
  datatype Found = Found(id: DocumentId, user: UserId, query: string)

  datatype Results = Results(key: string, owner: UserId, documents: seq<Found>, next: string, loading: bool)

  const EMPTY := Results("", "", [], "", false)

  // One server call: a first page, or a further one behind a cursor.
  datatype Call = Call(version: nat, props: Props, cursor: string)

  datatype Page = Page(documents: seq<Found>, next: string)

  datatype State = State(
    props: Props,
    version: nat,                 // of the latest request
    timer: Option<nat>,           // the pending debounce, by the version it was set at
    results: Results,
    calls: map<nat, Call>,        // not answered yet, in order of issue
    issued: nat,
    controller: Option<nat>,      // the version whose controller is current
    aborted: set<nat>)            // versions whose controller was aborted

  datatype Step =
    | Change(props: Props)        // a render with new props, or a retry
    | FireTimer
    | LoadMore
    | Respond(call: nat, page: Page)
    | RespondError(call: nat)

  // The effect: forget the timer, abort the running request, and debounce a
  // new one if there is something to search.
  function Changed(s: State, props: Props): State {
    var version := s.version + 1;
    var stopped := if s.controller.Some? then s.aborted + {s.controller.value} else s.aborted;
    if props.Searches()
    then s.(props := props, version := version, timer := Some(version), controller := Some(version), aborted := stopped)
    else s.(props := props, version := version, timer := None, aborted := stopped)
  }

  function Fired(s: State): State
    requires s.timer.Some?
  {
    var key := s.props.Key();
    var same := s.results.key == key;
    s.(timer := None,
       results := Results(key, s.props.user, if same then s.results.documents else [],
                          if same then s.results.next else "", true),
       calls := s.calls[s.issued := Call(s.timer.value, s.props, "")],
       issued := s.issued + 1)
  }

  predicate CanLoadMore(s: State) {
    && s.props.Active() && !s.props.Invalid()
    && s.results.key == s.props.Key() && s.results.next != "" && !s.results.loading
  }

  function LoadingMore(s: State): State {
    var version := s.version + 1;
    s.(version := version,
       aborted := if s.controller.Some? then s.aborted + {s.controller.value} else s.aborted,
       controller := Some(version),
       results := s.results.(loading := true),
       calls := s.calls[s.issued := Call(version, s.props, s.results.next)],
       issued := s.issued + 1)
  }

  // An answer counts only for the latest request and the current key, and an
  // aborted call never gives one.
  predicate Counts(s: State, call: Call) {
    call.version !in s.aborted && call.version == s.version && s.props.Key() == call.props.Key()
  }

  // Every document of a page is a result of the call's own search.
  ghost predicate Answers(call: Call, page: Page) {
    && (forall d :: d in page.documents ==> d.user == call.props.user && d.query == call.props.query)
    && NoRepeats(page.documents)
  }

  ghost predicate NoRepeats(documents: seq<Found>) {
    forall i, j :: 0 <= i < j < |documents| ==> documents[i].id != documents[j].id
  }

  function Known(documents: seq<Found>): set<DocumentId> { set d | d in documents :: d.id }

  function Unknown(known: set<DocumentId>, documents: seq<Found>): seq<Found> {
    if documents == [] then []
    else (if documents[0].id in known then [] else [documents[0]]) + Unknown(known, documents[1..])
  }

  function WithPage(s: State, call: Call, page: Page): State {
    if call.cursor == ""
    then s.(results := Results(call.props.Key(), call.props.user, page.documents, page.next, false))
    else
      var documents := s.results.documents + Unknown(Known(s.results.documents), page.documents);
      s.(results := s.results.(documents := documents, next := page.next, loading := false))
  }

  function WithError(s: State, call: Call): State {
    if call.cursor == ""
    then s.(results := s.results.(key := call.props.Key(), owner := call.props.user, loading := false))
    else s.(results := s.results.(loading := false))
  }

  // A step that is not possible in a state leaves it unchanged.
  function Do(s: State, step: Step): State {
    match step
    case Change(props) => Changed(s, props)
    case FireTimer => if s.timer.Some? then Fired(s) else s
    case LoadMore => if CanLoadMore(s) then LoadingMore(s) else s
    case Respond(i, page) =>
      if i !in s.calls then s
      else (if Counts(s, s.calls[i]) then WithPage(s, s.calls[i], page) else s).(calls := s.calls - {i})
    case RespondError(i) =>
      if i !in s.calls then s
      else (if Counts(s, s.calls[i]) then WithError(s, s.calls[i]) else s).(calls := s.calls - {i})
  }

  function Run(s: State, steps: seq<Step>): State
    decreases |steps|
  {
    if steps == [] then s else Run(Do(s, steps[0]), steps[1..])
  }

  // What the user sees.
  function Shown(s: State): seq<Found> {
    if !s.props.paused && s.props.user != "" && s.results.owner == s.props.user && !s.props.Invalid()
       && s.results.key == s.props.Key()
    then s.results.documents
    else []
  }

  const START := State(Props("", "", false), 0, None, EMPTY, map[], 0, None, {})

  // The hook itself: its refs and state, changed by effects and callbacks.
  class SearchSession {
    var props: Props
    var version: nat
    var timer: Option<nat>
    var results: Results
    var calls: map<nat, Call>
    var issued: nat
    var controller: Option<nat>
    var aborted: set<nat>

    ghost function Snapshot(): State
      reads this
    {
      State(props, version, timer, results, calls, issued, controller, aborted)
    }

    constructor ()
      ensures Snapshot() == START
    {
      props, version, timer, results := Props("", "", false), 0, None, EMPTY;
      calls, issued, controller, aborted := map[], 0, None, {};
    }

    method RunEffect(next: Props)
      modifies this
      ensures Snapshot() == Do(old(Snapshot()), Change(next))
    {
      props, version, timer := next, version + 1, None;
      AbortRequest();
      if props.Searches() {
        controller := Some(version);
        timer := Some(version);
      }
    }

    method AbortRequest()
      modifies this`aborted
      ensures aborted == if controller.Some? then old(aborted) + {controller.value} else old(aborted)
    {
      if controller.Some? {
        aborted := aborted + {controller.value};
      }
    }

    method Send(callVersion: nat, cursor: string)
      modifies this`calls, this`issued
      ensures calls == old(calls)[old(issued) := Call(callVersion, props, cursor)] && issued == old(issued) + 1
    {
      calls := calls[issued := Call(callVersion, props, cursor)];
      issued := issued + 1;
    }

    method TimerFires()
      modifies this
      ensures Snapshot() == Do(old(Snapshot()), FireTimer)
    {
      if timer.None? {
        return;
      }
      var key := props.Key();
      if results.key != key {
        results := Results(key, props.user, [], "", true);
      } else {
        results := results.(owner := props.user, loading := true);
      }
      Send(timer.value, "");
      timer := None;
    }

    method RequestMore()
      modifies this
      ensures Snapshot() == Do(old(Snapshot()), LoadMore)
    {
      if !props.Active() || props.Invalid() || results.key != props.Key() || results.next == "" || results.loading {
        return;
      }
      version := version + 1;
      AbortRequest();
      controller := Some(version);
      Send(version, results.next);
      results := results.(loading := true);
    }

    // A settled call: a page, or None for an error.
    method Settle(i: nat, page: Option<Page>)
      requires i in calls
      modifies this
      ensures Snapshot() == Do(old(Snapshot()), if page.Some? then Respond(i, page.value) else RespondError(i))
    {
      var call := calls[i];
      calls := calls - {i};
      if call.version in aborted || version != call.version || props.Key() != call.props.Key() {
        return;
      }
      if page.None? {
        if call.cursor == "" {
          results := results.(key := call.props.Key(), owner := call.props.user);
        }
        results := results.(loading := false);
      } else if call.cursor == "" {
        results := Results(call.props.Key(), call.props.user, page.value.documents, page.value.next, false);
      } else {
        var more := Unknown(Known(results.documents), page.value.documents);
        results := results.(documents := results.documents + more, next := page.value.next, loading := false);
      }
    }
  }

  // The server answers each call with results of its own search.
  ghost predicate Answered(s: State, step: Step) {
    step.Respond? && step.call in s.calls ==> Answers(s.calls[step.call], step.page)
  }

  ghost predicate AllAnswered(s: State, steps: seq<Step>)
    decreases |steps|
  {
    steps == [] || (Answered(s, steps[0]) && AllAnswered(Do(s, steps[0]), steps[1..]))
  }

  lemma KeyTellsUser(user: UserId, query: string, other: UserId, otherQuery: string)
    requires user + "\U{0000}" + query == other + "\U{0000}" + otherQuery
    ensures user == other && query == otherQuery
  {
    var key := user + "\U{0000}" + query;
    assert key[|user|] == '\U{0000}' && key[|other|] == '\U{0000}';
    assert user == key[..|user|] && query == key[|user| + 1..];
  }

  // Results on screen belong to the search they are filed under.
  ghost predicate Filed(r: Results) {
    && (r.key == "" ==> r.documents == [])
    && (r.key != "" ==> exists query :: r.key == r.owner + "\U{0000}" + query)
    && (forall d :: d in r.documents ==> d.user == r.owner && r.key == r.owner + "\U{0000}" + d.query)
    && NoRepeats(r.documents)
  }

  ghost predicate CallSound(s: State, call: Call) {
    && call.version <= s.version
    && call.props.Active()
    && (call.version == s.version ==>
          call.props == s.props && s.results.key == s.props.Key() && s.results.owner == s.props.user)
  }

  ghost predicate Sound(s: State) {
    && Filed(s.results)
    && (forall i :: i in s.calls ==> i < s.issued && CallSound(s, s.calls[i]))
    && (s.controller.Some? ==> s.controller.value <= s.version)
    && (forall v :: v in s.aborted ==> v < s.version)
    && (s.timer.Some? ==> s.props.Searches())
    // A debounce overtaken by a loadMore has had its request aborted already.
    && (s.timer.Some? && s.timer.value == s.version ==> s.controller == s.timer)
    && (s.timer.Some? && s.timer.value != s.version ==> s.timer.value in s.aborted)
  }

  lemma CurrentKeyMeansOwner(s: State)
    requires Filed(s.results) && s.props.Active() && s.results.key == s.props.Key()
    ensures s.results.owner == s.props.user
  {
    var query :| s.results.key == s.results.owner + "\U{0000}" + query;
    KeyTellsUser(s.results.owner, query, s.props.user, s.props.query);
  }

  lemma {:induction false} UnknownIsFresh(known: set<DocumentId>, documents: seq<Found>)
    requires NoRepeats(documents)
    ensures NoRepeats(Unknown(known, documents))
    ensures forall d :: d in Unknown(known, documents) ==> d in documents && d.id !in known
  {
    if documents != [] {
      UnknownIsFresh(known, documents[1..]);
      forall d | d in Unknown(known, documents[1..]) ensures d.id != documents[0].id {
        var i :| 0 <= i < |documents[1..]| && documents[1..][i] == d;
        assert documents[i + 1] == d;
      }
    }
  }

  lemma PageStaysFiled(s: State, call: Call, page: Page)
    requires Sound(s) && CallSound(s, call) && Counts(s, call) && Answers(call, page)
    ensures Filed(WithPage(s, call, page).results)
  {
    if call.cursor == "" {
      assert call.props.Key() == call.props.user + "\U{0000}" + call.props.query;
    } else {
      var known := Known(s.results.documents);
      UnknownIsFresh(known, page.documents);
      var more := Unknown(known, page.documents);
      forall d | d in s.results.documents ensures d.id in known {}
      forall i, j | 0 <= i < |s.results.documents| && 0 <= j < |more| ensures s.results.documents[i].id != more[j].id {
        assert s.results.documents[i] in s.results.documents && more[j] in more;
      }
    }
  }

  lemma StepStaysSound(s: State, step: Step)
    requires Sound(s) && Answered(s, step)
    ensures Sound(Do(s, step))
  {
    match step
    case Change(_) =>
    case FireTimer => if s.timer.Some? { FiringStaysSound(s); }
    case LoadMore => if CanLoadMore(s) { CurrentKeyMeansOwner(s); }
    case Respond(i, page) =>
      if i in s.calls && Counts(s, s.calls[i]) {
        PageStaysFiled(s, s.calls[i], page);
        AnswerStaysSound(s, step);
      }
    case RespondError(i) =>
      if i in s.calls && Counts(s, s.calls[i]) { AnswerStaysSound(s, step); }
  }

  lemma FiringStaysSound(s: State)
    requires Sound(s) && s.timer.Some?
    ensures Sound(Fired(s))
  {
    assert s.props.Key() == s.props.user + "\U{0000}" + s.props.query;
    if s.results.key == s.props.Key() {
      CurrentKeyMeansOwner(s);
    }
    assert Filed(Fired(s).results);
  }

  lemma AnswerStaysSound(s: State, step: Step)
    requires Sound(s) && (step.Respond? || step.RespondError?) && step.call in s.calls && Counts(s, s.calls[step.call])
    requires step.Respond? ==> Filed(WithPage(s, s.calls[step.call], step.page).results)
    ensures Sound(Do(s, step))
  {
    assert CallSound(s, s.calls[step.call]);
    forall i | i in Do(s, step).calls ensures CallSound(Do(s, step), s.calls[i]) {
      assert CallSound(s, s.calls[i]);
    }
  }

  lemma {:induction false} SoundAlways(s: State, steps: seq<Step>)
    requires Sound(s) && AllAnswered(s, steps)
    ensures Sound(Run(s, steps))
    decreases |steps|
  {
    if steps != [] {
      StepStaysSound(s, steps[0]);
      SoundAlways(Do(s, steps[0]), steps[1..]);
    }
  }

  /**
   * Whatever is late, the documents shown are results of the current user's
   * current query, and no document is shown twice.
   */
  lemma OnlyCurrentResultsAreShown(steps: seq<Step>)
    requires AllAnswered(START, steps)
    ensures
      var s := Run(START, steps);
      && (forall d :: d in Shown(s) ==> d.user == s.props.user && d.query == s.props.query)
      && NoRepeats(Shown(s))
  {
    SoundAlways(START, steps);
    var s := Run(START, steps);
    forall d | d in Shown(s) ensures d.user == s.props.user && d.query == s.props.query {
      if s.props.Active() {
        KeyTellsUser(d.user, d.query, s.props.user, s.props.query);
      }
    }
  }

  // ----- What the latest answer shows -----

  /** The part of a page that is new is the page without the documents already known, in its order. */
  lemma {:induction false} UnknownSplits(known: set<DocumentId>, first: seq<Found>, second: seq<Found>)
    ensures Unknown(known, first + second) == Unknown(known, first) + Unknown(known, second)
    ensures |first| == 1 ==> Unknown(known, first) == if first[0].id in known then [] else first
    decreases |first|
  {
    if first == [] {
      assert first + second == second;
    } else {
      var head := if first[0].id in known then [] else [first[0]];
      assert (first + second)[1..] == first[1..] + second;
      UnknownSplits(known, first[1..], second);
      assert Unknown(known, first + second) == head + Unknown(known, first[1..] + second);
      assert Unknown(known, first) == head + Unknown(known, first[1..]);
    }
  }

  lemma {:induction false} UnknownIsTheRest(known: set<DocumentId>, documents: seq<Found>)
    ensures forall d :: d in Unknown(known, documents) <==> d in documents && d.id !in known
    decreases |documents|
  {
    if documents != [] { UnknownIsTheRest(known, documents[1..]); }
  }

  /**
   * The answer of the latest request is shown at once: a first page in place
   * of what was there, a further page behind it, without the documents already
   * shown and leaving none out.
   */
  lemma LatestAnswerIsShown(s: State, i: nat, page: Page)
    requires Sound(s) && i in s.calls && Counts(s, s.calls[i]) && !s.props.paused && |s.props.query| <= 200
    ensures
      var after := Do(s, Respond(i, page));
      && !after.results.loading && after.results.next == page.next
      && (s.calls[i].cursor == "" ==> Shown(after) == page.documents)
      && (s.calls[i].cursor != "" ==>
            && Shown(s) <= Shown(after)
            && forall d :: d in Shown(after)[|Shown(s)|..] <==>
                           d in page.documents && forall e :: e in Shown(s) ==> e.id != d.id)
  {
    assert CallSound(s, s.calls[i]);
    if s.calls[i].cursor != "" {
      UnknownIsTheRest(Known(s.results.documents), page.documents);
      assert Shown(s) == s.results.documents;
      assert Shown(Do(s, Respond(i, page)))[|Shown(s)|..] == Unknown(Known(s.results.documents), page.documents);
    }
  }

  /** An error of the latest request ends the loading and leaves what is shown. */
  lemma LatestErrorEndsLoading(s: State, i: nat)
    requires Sound(s) && i in s.calls && Counts(s, s.calls[i])
    ensures
      var after := Do(s, RespondError(i));
      !after.results.loading && Shown(after) == Shown(s) && after.results.next == s.results.next
  {
    assert CallSound(s, s.calls[i]);
  }

  /** A search nobody disturbs asks for the current query's first page. */
  lemma UndisturbedSearchAsks(s: State, props: Props)
    requires Sound(s) && props.user != "" && props.query != "" && |props.query| <= 200 && !props.paused
    ensures
      var fired := Do(Do(s, Change(props)), FireTimer);
      && fired.calls == s.calls[s.issued := Call(s.version + 1, props, "")]
      && Counts(fired, fired.calls[s.issued]) && fired.results.loading
  {
  }

  /** Loading more asks for the page behind the cursor, and shows no less meanwhile. */
  lemma LoadMoreAsksBehindTheCursor(s: State)
    requires Sound(s) && CanLoadMore(s)
    ensures
      var more := Do(s, LoadMore);
      && more.calls == s.calls[s.issued := Call(s.version + 1, s.props, s.results.next)]
      && Counts(more, more.calls[s.issued]) && more.results.loading && Shown(more) == Shown(s)
  {
  }

  /** There is more to load exactly behind a cursor of the current search that is not loading already. */
  lemma MoreCanBeLoaded(s: State)
    ensures Do(s, LoadMore) != s <==>
            && s.props.user != "" && s.props.query != "" && |s.props.query| <= 200
            && s.results.key == s.props.user + "\U{0000}" + s.props.query
            && s.results.next != "" && !s.results.loading
  {
    if CanLoadMore(s) { assert Do(s, LoadMore).version != s.version; }
  }

  /** Nothing is searched or shown for a blank or an overlong query, without a user, or while paused. */
  lemma NothingWithoutASearch(s: State, props: Props)
    requires props.user == "" || props.query == "" || |props.query| > 200 || props.paused
    ensures
      var after := Do(s, Change(props));
      && after.timer.None? && after.calls == s.calls && after.results == s.results
      && (Sound(s) ==> Shown(after) == [])
  {
    if Sound(s) && props.query == "" { assert s.results.key == "" ==> s.results.documents == []; }
  }

  // ----- A spinner nobody will stop -----

  predicate Stranded(s: State) {
    && s.results.loading && s.results.key == s.props.Key() && s.timer.None?
    && forall i :: i in s.calls ==> !Counts(s, s.calls[i])
  }

  /**
   * A debounce that fires leaves the search loading for nothing exactly when a
   * loadMore came in between and its own call has already been answered: the
   * loadMore had aborted the request the debounce then makes.
   */
  lemma FiringStrands(s: State)
    requires Sound(s) && s.timer.Some?
    ensures Stranded(Do(s, FireTimer))
            <==> s.timer.value != s.version && forall i :: i in s.calls ==> !Counts(s, s.calls[i])
  {
    var after := Fired(s);
    assert s.issued in after.calls && s.issued !in s.calls;
    assert forall i :: i in s.calls ==>
                         after.calls[i] == s.calls[i] && Counts(after, s.calls[i]) == Counts(s, s.calls[i]);
  }

  // An enabled search that waits for nothing.
  predicate Stuck(s: State) { s.props.Searches() && Stranded(s) }

  predicate Overtaken(s: State, step: Step) {
    && step.FireTimer? && s.timer.Some? && s.timer.value != s.version
    && forall i :: i in s.calls ==> !Counts(s, s.calls[i])
  }

  lemma OnlyOvertakingStrands(s: State, step: Step)
    requires Sound(s) && !Stuck(s)
    ensures Stuck(Do(s, step)) <==> Overtaken(s, step)
  {
    match step
    case Change(_) =>
    case FireTimer => if s.timer.Some? { FiringStrands(s); }
    case LoadMore =>
      if CanLoadMore(s) {
        assert s.issued in LoadingMore(s).calls && Counts(LoadingMore(s), LoadingMore(s).calls[s.issued]);
      }
    case _ => AnswersStrandNobody(s, step);
  }

  lemma AnswersStrandNobody(s: State, step: Step)
    requires Sound(s) && !Stuck(s) && (step.Respond? || step.RespondError?)
    ensures !Stuck(Do(s, step))
  {
    var after := Do(s, step);
    if step.call in s.calls && !Counts(s, s.calls[step.call]) && Stuck(after) {
      forall i | i in s.calls ensures !Counts(s, s.calls[i]) {
        if i != step.call { assert i in after.calls && after.calls[i] == s.calls[i]; }
      }
    }
  }

  ghost predicate NeverStuck(s: State, steps: seq<Step>)
    decreases |steps|
  {
    !Stuck(s) && (steps != [] ==> NeverStuck(Do(s, steps[0]), steps[1..]))
  }

  ghost predicate NeverOvertaken(s: State, steps: seq<Step>)
    decreases |steps|
  {
    steps == [] || (!Overtaken(s, steps[0]) && NeverOvertaken(Do(s, steps[0]), steps[1..]))
  }

  /** Over every run, a search never waits for nothing exactly if no debounce fires that a loadMore overtook so. */
  lemma {:induction false} SearchesStrandOnlyWhenOvertaken(s: State, steps: seq<Step>)
    requires Sound(s) && !Stuck(s) && AllAnswered(s, steps)
    ensures NeverStuck(s, steps) <==> NeverOvertaken(s, steps)
    decreases |steps|
  {
    if steps != [] {
      OnlyOvertakingStrands(s, steps[0]);
      StepStaysSound(s, steps[0]);
      if !Overtaken(s, steps[0]) {
        SearchesStrandOnlyWhenOvertaken(Do(s, steps[0]), steps[1..]);
      } else {
        assert !NeverStuck(Do(s, steps[0]), steps[1..]);
      }
    }
  }

  /** A stranded search stays so, and shows nothing new, until the query, user or pause changes, or a retry. */
  lemma {:induction false} StrandedUntilChange(s: State, steps: seq<Step>)
    requires Stranded(s) && forall i :: 0 <= i < |steps| ==> !steps[i].Change?
    ensures Stranded(Run(s, steps)) && Shown(Run(s, steps)) == Shown(s)
    decreases |steps|
  {
    if steps != [] { StrandedUntilChange(Do(s, steps[0]), steps[1..]); }
  }

  /** It happens: retry, load more before the debounce ends, and the page arrives first. */
  lemma StrandingRun(s: State, page: Page)
    requires Sound(s) && s.props.Searches() && s.timer.None? && CanLoadMore(s)
    ensures Stranded(Do(Do(Do(Do(s, Change(s.props)), LoadMore), Respond(s.issued, page)), FireTimer))
  {
    var retried := Do(s, Change(s.props));
    var more := Do(retried, LoadMore);
    var answered := Do(more, Respond(s.issued, page));
    assert Counts(more, more.calls[s.issued]);
    forall i | i in answered.calls ensures !Counts(answered, answered.calls[i]) {
      assert CallSound(s, s.calls[i]);
    }
    assert answered.timer == Some(s.version + 1) && answered.timer.value in answered.aborted;
  }

  // A search with a first page that has a next one.
  function Searched(props: Props, page: Page): State {
    Do(Do(Do(START, Change(props)), FireTimer), Respond(0, page))
  }

  /** The same run, from the hook's first render on. */
  lemma StrandingFromStart(props: Props, page: Page, more: Page)
    requires props.Searches() && page.next != "" && Answers(Call(1, props, ""), page)
    ensures Stuck(Do(Do(Do(Do(Searched(props, page), Change(props)), LoadMore), Respond(1, more)), FireTimer))
  {
    var fired := Do(Do(START, Change(props)), FireTimer);
    assert fired.calls == map[0 := Call(1, props, "")] && Counts(fired, fired.calls[0]);
    var s := Searched(props, page);
    assert s.results == Results(props.Key(), props.user, page.documents, page.next, false);
    StepStaysSound(START, Change(props));
    StepStaysSound(Do(START, Change(props)), FireTimer);
    StepStaysSound(fired, Respond(0, page));
    StrandingRun(s, more);
  }
}
