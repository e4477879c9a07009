/**
 * The two text changes an agent can ask for: replace one passage, append at
 * the end. Text is a sequence of Unicode characters.
 */
module AgentText {
  import opened Wrappers

  type Text = string

  // ----- Replacing a passage -----

  predicate MatchesAt(body: Text, passage: Text, i: int) {
    0 <= i <= |body| - |passage| && body[i..i + |passage|] == passage
  }

  // The leftmost match at or after `from`.
  function Find(body: Text, passage: Text, from: nat): (r: Option<nat>)
    ensures r.Some? ==>
              && from <= r.value && MatchesAt(body, passage, r.value)
              && forall i :: from <= i < r.value ==> !MatchesAt(body, passage, i)
    ensures r.None? ==> forall i :: from <= i ==> !MatchesAt(body, passage, i)
    decreases |body| - from
  {
    if from + |passage| > |body| then None
    else if MatchesAt(body, passage, from) then Some(from)
    else Find(body, passage, from + 1)
  }

  // Counting skips past each match it finds, so overlapping matches count once.
  function Count(body: Text, passage: Text, from: nat): nat
    requires passage != ""
    decreases |body| - from
  {
    match Find(body, passage, from)
    case None => 0
    case Some(i) => 1 + Count(body, passage, i + |passage|)
  }

  // Places where the passage occurs, from left to right and without overlaps.
  ghost predicate Disjoint(body: Text, passage: Text, from: nat, places: seq<nat>) {
    && (forall k :: 0 <= k < |places| ==> from <= places[k] && MatchesAt(body, passage, places[k]))
    && (forall k, l :: 0 <= k < l < |places| ==> places[k] + |passage| <= places[l])
  }

  /** Counting finds as many occurrences as can be found without overlaps. */
  lemma {:induction false} CountIsMost(body: Text, passage: Text, from: nat, places: seq<nat>)
    requires passage != "" && Disjoint(body, passage, from, places)
    ensures |places| <= Count(body, passage, from)
    decreases |places|
  {
    if places != [] {
      var first := Find(body, passage, from);
      assert MatchesAt(body, passage, places[0]);
      assert first.Some? && first.value <= places[0];
      assert Disjoint(body, passage, first.value + |passage|, places[1..]);
      CountIsMost(body, passage, first.value + |passage|, places[1..]);
    }
  }

  lemma {:induction false} CountIsReached(body: Text, passage: Text, from: nat) returns (places: seq<nat>)
    requires passage != ""
    ensures Disjoint(body, passage, from, places) && |places| == Count(body, passage, from)
    decreases |body| - from
  {
    match Find(body, passage, from)
    case None => places := [];
    case Some(i) =>
      var rest := CountIsReached(body, passage, i + |passage|);
      places := [i] + rest;
  }

  datatype EditError = EmptyPassage | NotInDocument | Repeated(times: nat)

  function Edit(body: Text, passage: Text, replacement: Text): Result<Text, EditError> {
    if passage == "" then Failure(EmptyPassage)
    else
      match Count(body, passage, 0)
      case 0 => Failure(NotInDocument)
      case 1 => var i := Find(body, passage, 0).value; Success(body[..i] + replacement + body[i + |passage|..])
      case n => Failure(Repeated(n))
  }

  /**
   * An edit is accepted exactly when the passage occurs and every occurrence
   * starts before the leftmost one ends; it then replaces the leftmost one and
   * keeps everything before and after it.
   */
  lemma EditReplacesLeftmost(body: Text, passage: Text, replacement: Text)
    requires passage != ""
    ensures Edit(body, passage, replacement).Success? <==>
              exists i :: MatchesAt(body, passage, i)
                          && forall j :: MatchesAt(body, passage, j) ==> i <= j < i + |passage|
    ensures Edit(body, passage, replacement).Success? ==>
              exists i :: MatchesAt(body, passage, i) && (forall j :: MatchesAt(body, passage, j) ==> i <= j)
                          && Edit(body, passage, replacement).value == body[..i] + replacement + body[i + |passage|..]
  {
    var first := Find(body, passage, 0);
    if first.Some? {
      var i := first.value;
      assert MatchesAt(body, passage, i);
      var second := Find(body, passage, i + |passage|);
      if second.Some? {
        assert MatchesAt(body, passage, second.value);
      }
      assert Count(body, passage, 0) == 1 <==> second.None?;
    }
  }

  /** A refused edit says why: no passage, none found, or how many can be found without overlaps. */
  lemma EditRefusals(body: Text, passage: Text, replacement: Text)
    ensures Edit(body, passage, replacement) == Failure(EmptyPassage) <==> passage == ""
    ensures Edit(body, passage, replacement) == Failure(NotInDocument)
            <==> passage != "" && forall i :: !MatchesAt(body, passage, i)
    ensures Edit(body, passage, replacement).Failure? && Edit(body, passage, replacement).error.Repeated? ==>
              var times := Edit(body, passage, replacement).error.times;
              times >= 2 && exists places :: Disjoint(body, passage, 0, places) && |places| == times
  {
    if passage != "" {
      var places := CountIsReached(body, passage, 0);
      if Find(body, passage, 0).Some? {
        assert MatchesAt(body, passage, Find(body, passage, 0).value);
      }
    }
  }

  ghost predicate OccursOnce(body: Text, passage: Text) {
    exists i :: MatchesAt(body, passage, i) && forall j :: MatchesAt(body, passage, j) ==> i == j
  }

  // The passage overlaps a shifted copy of itself: some proper suffix of it is
  // also a prefix.
  ghost predicate HasBorder(passage: Text) {
    exists k :: 0 < k < |passage| && passage[..k] == passage[|passage| - k..]
  }

  /**
   * The tool promises that the passage must appear exactly once. That holds in
   * every document exactly for passages without a border: those are the ones
   * that cannot overlap themselves.
   */
  lemma OccursOncePromise(passage: Text, replacement: Text)
    requires passage != ""
    ensures (forall body :: Edit(body, passage, replacement).Success? ==> OccursOnce(body, passage))
            <==> !HasBorder(passage)
  {
    if HasBorder(passage) {
      var k :| 0 < k < |passage| && passage[..k] == passage[|passage| - k..];
      OverlapIsAccepted(passage, replacement, k);
    } else {
      forall body | Edit(body, passage, replacement).Success? ensures OccursOnce(body, passage) {
        BorderlessOccursOnce(body, passage, replacement);
      }
    }
  }

  // Two copies glued along the border: accepted, but the passage occurs twice.
  lemma OverlapIsAccepted(passage: Text, replacement: Text, k: nat)
    requires 0 < k < |passage| && passage[..k] == passage[|passage| - k..]
    ensures var body := passage + passage[k..]; Edit(body, passage, replacement).Success? && !OccursOnce(body, passage)
  {
    var body := passage + passage[k..];
    var shift := |passage| - k;
    assert body[0..|passage|] == passage;
    assert body[shift..shift + |passage|] == passage by {
      assert body[shift..shift + |passage|] == passage[shift..] + passage[k..];
      assert passage[..k] + passage[k..] == passage;
    }
    assert MatchesAt(body, passage, 0) && MatchesAt(body, passage, shift);
    EditReplacesLeftmost(body, passage, replacement);
  }

  /** The shortest such document: "aa" is replaced in "aaa", where it occurs twice. */
  lemma OverlapRun(replacement: Text)
    ensures Edit("aaa", "aa", replacement).Success? && !OccursOnce("aaa", "aa")
  {
    assert "aa" + "aa"[1..] == "aaa";
    OverlapIsAccepted("aa", replacement, 1);
  }

  lemma BorderlessOccursOnce(body: Text, passage: Text, replacement: Text)
    requires passage != "" && Edit(body, passage, replacement).Success?
    ensures OccursOnce(body, passage) || HasBorder(passage)
  {
    EditReplacesLeftmost(body, passage, replacement);
    var i :| MatchesAt(body, passage, i) && forall j :: MatchesAt(body, passage, j) ==> i <= j < i + |passage|;
    if j :| MatchesAt(body, passage, j) && i != j {
      OverlapIsBorder(body, passage, i, j);
    }
  }

  lemma OverlapIsBorder(body: Text, passage: Text, i: int, j: int)
    requires MatchesAt(body, passage, i) && MatchesAt(body, passage, j) && i < j < i + |passage|
    ensures HasBorder(passage)
  {
    var k := i + |passage| - j;
    var overlap := body[j..i + |passage|];
    assert body[j..j + |passage|][..k] == overlap;
    assert body[i..i + |passage|][|passage| - k..] == overlap;
    assert passage[..k] == passage[|passage| - k..];
  }

  // ----- Appending -----

  predicate IsSpace(c: char) {
    || '\t' <= c <= '\r' || c == ' ' || c == '\U{0085}' || c == '\U{00A0}' || c == '\U{1680}'
    || '\U{2000}' <= c <= '\U{200A}' || c == '\U{2028}' || c == '\U{2029}' || c == '\U{202F}' || c == '\U{205F}'
    || c == '\U{3000}'
  }

  predicate IsBlank(text: Text) { forall i :: 0 <= i < |text| ==> IsSpace(text[i]) }

  /** White space is what Unicode says it is. */
  lemma WhiteSpace(c: char)
    ensures IsSpace(c) <==>
            c in {'\U{0009}', '\U{000A}', '\U{000B}', '\U{000C}', '\U{000D}', '\U{0020}', '\U{0085}', '\U{00A0}',
                  '\U{1680}', '\U{2000}', '\U{2001}', '\U{2002}', '\U{2003}', '\U{2004}', '\U{2005}', '\U{2006}',
                  '\U{2007}', '\U{2008}', '\U{2009}', '\U{200A}', '\U{2028}', '\U{2029}', '\U{202F}', '\U{205F}',
                  '\U{3000}'}
  {
  }

  function TrimRight(text: Text): (r: Text)
    ensures r <= text && (r != "" ==> r[|r| - 1] != '\n')
    ensures forall i :: |r| <= i < |text| ==> text[i] == '\n'
  {
    if text != "" && text[|text| - 1] == '\n' then TrimRight(text[..|text| - 1]) else text
  }

  function TrimLeft(text: Text): Text {
    if text != "" && text[0] == '\n' then TrimLeft(text[1..]) else text
  }

  function Addition(markdown: Text): Text { TrimRight(TrimLeft(markdown)) }

  predicate Newlines(text: Text) { forall i :: 0 <= i < |text| ==> text[i] == '\n' }

  /** The addition is the markdown without the newlines around it. */
  lemma {:induction false} AdditionIsTrimmed(markdown: Text) returns (before: Text, after: Text)
    ensures markdown == before + Addition(markdown) + after && Newlines(before) && Newlines(after)
    ensures var addition := Addition(markdown);
            addition != "" ==> addition[0] != '\n' && addition[|addition| - 1] != '\n'
    decreases |markdown|
  {
    if markdown != "" && markdown[0] == '\n' {
      before, after := AdditionIsTrimmed(markdown[1..]);
      assert markdown == "\n" + markdown[1..];
      before := "\n" + before;
    } else {
      before, after := "", markdown[|Addition(markdown)|..];
    }
  }

  /** An append is refused exactly if the markdown is white space all through. */
  lemma BlankAppendIsRefused(body: Text, markdown: Text)
    ensures Append(body, markdown).Failure? <==> forall i :: 0 <= i < |markdown| ==> IsSpace(markdown[i])
  {
    var before, after := AdditionIsTrimmed(markdown);
    var addition := Addition(markdown);
    if !IsBlank(addition) {
      var i :| 0 <= i < |addition| && !IsSpace(addition[i]);
      assert markdown[|before| + i] == addition[i];
    } else {
      assert forall i :: 0 <= i < |markdown| ==>
                           markdown[i] == if i < |before| then before[i]
                                          else if i < |before| + |addition| then addition[i - |before|]
                                          else after[i - |before| - |addition|];
    }
  }

  datatype AppendError = NothingToAdd

  function Append(body: Text, markdown: Text): Result<Text, AppendError> {
    var addition := Addition(markdown);
    if IsBlank(addition) then Failure(NothingToAdd)
    else
      var trimmed := TrimRight(body);
      Success(if trimmed == "" then addition + "\n" else trimmed + "\n\n" + addition + "\n")
  }

  // A chain of append calls; a refused call leaves the body as it is.
  function AppendAll(body: Text, calls: seq<Text>): Text {
    if calls == [] then body
    else
      var earlier := AppendAll(body, calls[..|calls| - 1]);
      var result := Append(earlier, calls[|calls| - 1]);
      if result.Success? then result.value else earlier
  }

  // The additions of the accepted calls.
  function Additions(calls: seq<Text>): seq<Text> {
    if calls == [] then []
    else
      var last := Addition(calls[|calls| - 1]);
      Additions(calls[..|calls| - 1]) + if IsBlank(last) then [] else [last]
  }

  function Paragraphs(parts: seq<Text>): Text {
    if parts == [] then ""
    else if |parts| == 1 then parts[0]
    else Paragraphs(parts[..|parts| - 1]) + "\n\n" + parts[|parts| - 1]
  }

  predicate EndsInText(text: Text) { text != "" && text[|text| - 1] != '\n' }

  lemma EndsIn(text: Text)
    requires EndsInText(text)
    ensures TrimRight(text + "\n") == text && TrimRight(text) == text
  {
    assert (text + "\n")[..|text|] == text;
  }

  lemma {:induction false} ParagraphsEnd(parts: seq<Text>)
    requires parts != [] && forall p :: p in parts ==> EndsInText(p)
    ensures EndsInText(Paragraphs(parts))
  {
    assert parts[|parts| - 1] in parts;
  }

  lemma {:induction false} AdditionsAreText(calls: seq<Text>)
    ensures forall p :: p in Additions(calls) ==> EndsInText(p)
  {
    if calls != [] { AdditionsAreText(calls[..|calls| - 1]); }
  }

  // The paragraphs of a document once appends have been accepted: its own
  // text without trailing newlines, if any, and then the additions.
  function Parts(body: Text, calls: seq<Text>): seq<Text> {
    (if TrimRight(body) == "" then [] else [TrimRight(body)]) + Additions(calls)
  }

  /**
   * Any chain of appends yields the newline-trimmed body and all accepted
   * additions, joined by one blank line, with one final newline. A body
   * without text contributes nothing; without an accepted call the body is
   * untouched.
   */
  lemma {:induction false} AppendsJoinParagraphs(body: Text, calls: seq<Text>)
    ensures AppendAll(body, calls) == if Additions(calls) == [] then body else Paragraphs(Parts(body, calls)) + "\n"
  {
    if calls != [] {
      var earlier := calls[..|calls| - 1];
      var markdown := calls[|calls| - 1];
      AppendsJoinParagraphs(body, earlier);
      PartsGrow(body, calls);
      if !IsBlank(Addition(markdown)) {
        AdditionsAreText(earlier);
        PartsAreTrimmed(body, earlier, AppendAll(body, earlier));
        OneMore(AppendAll(body, earlier), Parts(body, earlier), markdown);
      }
    }
  }

  lemma PartsGrow(body: Text, calls: seq<Text>)
    requires calls != []
    ensures
      var earlier, addition := calls[..|calls| - 1], Addition(calls[|calls| - 1]);
      if IsBlank(addition) then Additions(calls) == Additions(earlier) && Parts(body, calls) == Parts(body, earlier)
      else Additions(calls) != [] && Parts(body, calls) == Parts(body, earlier) + [addition]
  {
  }

  lemma PartsAreTrimmed(body: Text, calls: seq<Text>, result: Text)
    requires forall p :: p in Additions(calls) ==> EndsInText(p)
    requires result == if Additions(calls) == [] then body else Paragraphs(Parts(body, calls)) + "\n"
    ensures TrimRight(result) == Paragraphs(Parts(body, calls))
    ensures Paragraphs(Parts(body, calls)) == "" <==> Parts(body, calls) == []
  {
    var parts := Parts(body, calls);
    if parts != [] {
      assert forall p :: p in parts ==> EndsInText(p);
      ParagraphsEnd(parts);
      EndsIn(Paragraphs(parts));
    }
  }

  lemma OneMore(body: Text, parts: seq<Text>, markdown: Text)
    requires TrimRight(body) == Paragraphs(parts) && (Paragraphs(parts) == "" <==> parts == [])
    requires !IsBlank(Addition(markdown))
    ensures Append(body, markdown).Success?
            && Append(body, markdown).value == Paragraphs(parts + [Addition(markdown)]) + "\n"
  {
    assert (parts + [Addition(markdown)])[..|parts|] == parts;
  }
}
