/**
 * The two fixed-window limiters: one process-local with a periodic sweep, one
 * kept in database rows that saturate and are cleaned up in bounded batches.
 * Both are proved to answer like the same plain table that forgets nothing,
 * and the bounds promised to callers are proved on that table.
 */
module RateLimits {
  import opened Wrappers

  // A point in time or a duration, in nanoseconds.
  type Time = int
  type Key = string
  type Scope = string
  type RowKey = (Scope, Key)

  const SECOND: Time := 1_000_000_000
  const CLEANUP_BATCH_SIZE: nat := 100
  const CLEANUP_INTERVAL: Time := 60 * SECOND

  datatype Settings = Settings(limit: int, window: Time) {
    predicate Disabled() { limit <= 0 || window <= 0 }
  }

  datatype Answer = Admitted | Denied(retryAfter: Time)

  datatype Window = Window(started: Time, requests: int)

  datatype Request = Request(scope: Scope, key: Key, now: Time, cleaned: set<RowKey>)

  // ----- The plain table: every window ever opened, never swept -----

  type Table = map<Key, Window>

  predicate Live(t: Table, key: Key, now: Time, s: Settings) {
    key in t && now < t[key].started + s.window
  }

  function TableStep(t: Table, key: Key, now: Time, s: Settings): (r: (Table, Answer)) {
    if s.Disabled() then (t, Admitted)
    else if !Live(t, key, now, s) then (t[key := Window(now, 1)], Admitted)
    else if t[key].requests >= s.limit then (t, Denied(t[key].started + s.window - now))
    else (t[key := Window(t[key].started, t[key].requests + 1)], Admitted)
  }

  // The answers one scope's requests get from the plain table.
  function TableAnswers(t: Table, trace: seq<Request>, scope: Scope, s: Settings): seq<Answer>
    decreases |trace|
  {
    if trace == [] then []
    else if trace[0].scope != scope then TableAnswers(t, trace[1..], scope, s)
    else
      var (t', answer) := TableStep(t, trace[0].key, trace[0].now, s);
      [answer] + TableAnswers(t', trace[1..], scope, s)
  }

  ghost predicate Chronological(trace: seq<Request>, from: Time) {
    && (forall i :: 0 <= i < |trace| ==> from <= trace[i].now)
    && (forall i, j :: 0 <= i < j < |trace| ==> trace[i].now <= trace[j].now)
  }

  // ----- The process-local limiter -----

  datatype Memory = Memory(entries: map<Key, Window>, lastSweep: Option<Time>)

  const EMPTY_MEMORY := Memory(map[], None)

  function Swept(m: Memory, now: Time, s: Settings): Memory {
    if m.lastSweep.None? || now >= m.lastSweep.value + s.window
    then Memory(map k | k in m.entries && now < m.entries[k].started + s.window :: m.entries[k], Some(now))
    else m
  }

  function MemoryStep(m: Memory, key: Key, now: Time, s: Settings): (r: (Memory, Answer)) {
    if s.Disabled() then (m, Admitted)
    else
      var swept := Swept(m, now, s);
      var (entries, answer) := TableStep(swept.entries, key, now, s);
      (Memory(entries, swept.lastSweep), answer)
  }

  function MemoryAnswers(m: Memory, trace: seq<Request>, scope: Scope, s: Settings): seq<Answer>
    decreases |trace|
  {
    if trace == [] then []
    else if trace[0].scope != scope then MemoryAnswers(m, trace[1..], scope, s)
    else
      var (m', answer) := MemoryStep(m, trace[0].key, trace[0].now, s);
      [answer] + MemoryAnswers(m', trace[1..], scope, s)
  }

  class MemoryLimiter {
    const settings: Settings
    var entries: map<Key, Window>
    var lastSweep: Option<Time>

    ghost function State(): Memory
      reads this
    {
      Memory(entries, lastSweep)
    }

    // What the last sweep left behind: nothing that had expired by then.
    ghost predicate Valid()
      reads this
    {
      && (lastSweep.None? ==> entries == map[])
      && (lastSweep.Some? ==> forall k :: k in entries ==> lastSweep.value < entries[k].started + settings.window)
    }

    constructor (settings: Settings)
      ensures Valid() && State() == EMPTY_MEMORY && this.settings == settings
    {
      this.settings := settings;
      entries := map[];
      lastSweep := None;
    }

    method Allow(key: Key, now: Time) returns (answer: Answer)
      modifies this
      ensures (State(), answer) == MemoryStep(old(State()), key, now, settings)
      // As long as the clock does not go back behind the last sweep, the map
      // never keeps a window that opened two windows ago or earlier.
      ensures old(Valid()) && (old(lastSweep).Some? ==> old(lastSweep).value <= now) ==>
                && Valid()
                && (!settings.Disabled() ==>
                      forall k :: k in entries ==> now < entries[k].started + 2 * settings.window)
    {
      if settings.limit <= 0 || settings.window <= 0 {
        return Admitted;
      }
      if lastSweep.None? || now >= lastSweep.value + settings.window {
        Sweep(now);
      }
      if key !in entries || now >= entries[key].started + settings.window {
        entries := entries[key := Window(now, 1)];
        return Admitted;
      }
      var entry := entries[key];
      if entry.requests >= settings.limit {
        return Denied(entry.started + settings.window - now);
      }
      entries := entries[key := Window(entry.started, entry.requests + 1)];
      return Admitted;
    }

    method Sweep(now: Time)
      modifies this
      ensures entries == map k | k in old(entries) && now < old(entries)[k].started + settings.window :: old(entries)[k]
      ensures lastSweep == Some(now)
    {
      var all := entries;
      var remaining := all.Keys;
      while remaining != {}
        invariant remaining <= all.Keys
        invariant entries == map k | k in all && (k in remaining || now < all[k].started + settings.window) :: all[k]
      {
        var existing :| existing in remaining;
        if now >= entries[existing].started + settings.window {
          entries := entries - {existing};
        }
        remaining := remaining - {existing};
      }
      lastSweep := Some(now);
    }
  }

  // Sweeping expired entries is invisible: from `now` on, both sides agree on
  // every window that is still open.
  ghost predicate Agree(entries: map<Key, Window>, t: Table, now: Time, s: Settings) {
    forall k :: Live(entries, k, now, s) == Live(t, k, now, s) && (Live(t, k, now, s) ==> entries[k] == t[k])
  }

  lemma {:induction false} MemoryAnswersLikeTable(m: Memory, t: Table, trace: seq<Request>, scope: Scope, s: Settings,
                                                  from: Time)
    requires Chronological(trace, from)
    requires Agree(m.entries, t, from, s)
    ensures MemoryAnswers(m, trace, scope, s) == TableAnswers(t, trace, scope, s)
    decreases |trace|
  {
    if trace != [] {
      var r := trace[0];
      assert Chronological(trace[1..], r.now);
      if r.scope != scope || s.Disabled() {
        assert Agree(m.entries, t, r.now, s) by {
          forall k ensures Live(m.entries, k, r.now, s) == Live(t, k, r.now, s) {
            assert Live(t, k, from, s) == Live(m.entries, k, from, s);
          }
        }
        MemoryAnswersLikeTable(m, t, trace[1..], scope, s, r.now);
      } else {
        var swept := Swept(m, r.now, s);
        assert Agree(swept.entries, t, r.now, s) by {
          forall k ensures Live(swept.entries, k, r.now, s) == Live(t, k, r.now, s) {
            assert Live(t, k, from, s) == Live(m.entries, k, from, s);
          }
        }
        assert Live(swept.entries, r.key, r.now, s) == Live(t, r.key, r.now, s);
        var (m', _) := MemoryStep(m, r.key, r.now, s);
        var (t', _) := TableStep(t, r.key, r.now, s);
        assert Agree(m'.entries, t', r.now, s) by {
          forall k
            ensures Live(m'.entries, k, r.now, s) == Live(t', k, r.now, s)
            ensures Live(t', k, r.now, s) ==> m'.entries[k] == t'[k]
          {
            assert Live(swept.entries, k, r.now, s) == Live(t, k, r.now, s);
          }
        }
        MemoryAnswersLikeTable(m', t', trace[1..], scope, s, r.now);
      }
    }
  }

  // ----- The database limiter -----

  datatype Row = Row(started: Time, expires: Time, requests: int)

  type Rows = map<RowKey, Row>

  function Min(a: int, b: int): int { if a <= b then a else b }

  // The upsert of `consume`, after cleanup: open a new window over an expired
  // row, otherwise count up and saturate one above the limit.
  function Upserted(rows: Rows, at: RowKey, now: Time, s: Settings): Row {
    if at !in rows || rows[at].expires <= now then Row(now, now + s.window, 1)
    else rows[at].(requests := Min(rows[at].requests + 1, s.limit + 1))
  }

  function AnswerFor(row: Row, now: Time, s: Settings): Answer {
    if row.requests <= s.limit then Admitted
    else Denied(if row.expires - now < 0 then 0 else row.expires - now)
  }

  // A cleanup may drop any expired rows, of any scope.
  function Cleaned(rows: Rows, now: Time, batch: set<RowKey>): Rows {
    map k | k in rows && !(k in batch && rows[k].expires <= now) :: rows[k]
  }

  function RowsStep(rows: Rows, r: Request, s: Settings): (Rows, Answer) {
    if s.Disabled() then (rows, Admitted)
    else
      var kept := Cleaned(rows, r.now, r.cleaned);
      var row := Upserted(kept, (r.scope, r.key), r.now, s);
      (kept[(r.scope, r.key) := row], AnswerFor(row, r.now, s))
  }

  // One shared table serves every scope, each with its own settings.
  function RowsAnswers(rows: Rows, trace: seq<Request>, scope: Scope, settings: Scope -> Settings): seq<Answer>
    decreases |trace|
  {
    if trace == [] then []
    else
      var (rows', answer) := RowsStep(rows, trace[0], settings(trace[0].scope));
      (if trace[0].scope == scope then [answer] else []) + RowsAnswers(rows', trace[1..], scope, settings)
  }

  class DatabaseLimiter {
    var rows: Rows
    var lastCleanup: Option<Time>

    constructor ()
      ensures rows == map[] && lastCleanup == None
    {
      rows := map[];
      lastCleanup := None;
    }

    // `locked` are the rows other sessions hold; the cleanup skips them.
    method Allow(scope: Scope, key: Key, now: Time, s: Settings, locked: set<RowKey>)
      returns (answer: Answer, batch: set<RowKey>)
      modifies this
      ensures (rows, answer) == RowsStep(old(rows), Request(scope, key, now, batch), s)
      ensures CleanupBatch(old(rows), now, locked, batch) || batch == {}
    {
      if s.limit <= 0 || s.window <= 0 {
        return Admitted, {};
      }
      answer, batch := Consume(scope, key, now, s, locked);
    }

    method Consume(scope: Scope, key: Key, now: Time, s: Settings, locked: set<RowKey>)
      returns (answer: Answer, batch: set<RowKey>)
      requires !s.Disabled()
      modifies this
      ensures (rows, answer) == RowsStep(old(rows), Request(scope, key, now, batch), s)
      ensures CleanupBatch(old(rows), now, locked, batch) || batch == {}
      // A full batch leaves the next call free to clean again at once.
      ensures |batch| == CLEANUP_BATCH_SIZE ==> lastCleanup == None
      ensures !Rested(old(lastCleanup), now) ==> batch == {}
    {
      batch := MaybeCleanup(now, locked);
      var at := (scope, key);
      if at in rows && rows[at].expires > now {
        var row := rows[at];
        var next := row.requests + 1;
        if next > s.limit + 1 {
          next := s.limit + 1;
        }
        rows := rows[at := Row(row.started, row.expires, next)];
      } else {
        rows := rows[at := Row(now, now + s.window, 1)];
      }
      if rows[at].requests <= s.limit {
        return Admitted, batch;
      }
      var retryAfter := rows[at].expires - now;
      if retryAfter < 0 {
        retryAfter := 0;
      }
      return Denied(retryAfter), batch;
    }

    method MaybeCleanup(now: Time, locked: set<RowKey>) returns (batch: set<RowKey>)
      modifies this
      ensures rows == Cleaned(old(rows), now, batch)
      ensures old(lastCleanup).Some? && now < old(lastCleanup).value + 60_000_000_000 ==> batch == {}
      ensures |batch| <= 100
      ensures old(lastCleanup).None? || now >= old(lastCleanup).value + 60_000_000_000 ==>
                && lastCleanup == (if |batch| == 100 then None else Some(now))
                && (|batch| < 100 ==>
                      forall k :: k in rows && k !in locked ==> now < rows[k].expires)
      // Within a minute of the last cleanup nothing is removed; otherwise the
      // minute starts anew, unless a full batch leaves more to remove.
      ensures Rested(old(lastCleanup), now) ==> CleanupBatch(old(rows), now, locked, batch)
      ensures !Rested(old(lastCleanup), now) ==> batch == {}
      ensures lastCleanup ==
              if !Rested(old(lastCleanup), now) then old(lastCleanup)
              else if |batch| == CLEANUP_BATCH_SIZE then None else Some(now)
    {
      if lastCleanup.Some? && now < lastCleanup.value + CLEANUP_INTERVAL {
        assert rows == Cleaned(rows, now, {});
        return {};
      }
      lastCleanup := Some(now);
      batch := CleanupExpired(now, locked);
      if |batch| == CLEANUP_BATCH_SIZE {
        lastCleanup := None;
      }
    }

    // Deletes the rows that expired first, up to one batch.
    method CleanupExpired(now: Time, locked: set<RowKey>) returns (batch: set<RowKey>)
      modifies this`rows
      ensures CleanupBatch(old(rows), now, locked, batch)
      ensures rows == Cleaned(old(rows), now, batch)
    {
      batch := {};
      var all := rows;
      assert rows == Cleaned(all, now, {});
      var expired := set k | k in rows && rows[k].expires <= now && k !in locked;
      while expired != {} && |batch| < CLEANUP_BATCH_SIZE
        invariant |batch| <= CLEANUP_BATCH_SIZE
        invariant forall k :: k in expired <==> k in all && all[k].expires <= now && k !in locked && k !in batch
        invariant forall k :: k in batch ==> k in all && all[k].expires <= now && k !in locked
        invariant forall k, l :: k in batch && l in expired ==> all[k].expires <= all[l].expires
        invariant rows == Cleaned(all, now, batch)
        decreases expired
      {
        var first := EarliestExpiry(all, expired);
        batch := batch + {first};
        expired := expired - {first};
        rows := rows - {first};
      }
    }
  }

  method EarliestExpiry(all: Rows, candidates: set<RowKey>) returns (first: RowKey)
    requires candidates != {} && candidates <= all.Keys
    ensures first in candidates && forall k :: k in candidates ==> all[first].expires <= all[k].expires
  {
    first :| first in candidates;
    var remaining := candidates - {first};
    while remaining != {}
      invariant remaining <= candidates && first in candidates
      invariant forall k :: k in candidates && k !in remaining ==> all[first].expires <= all[k].expires
    {
      var other :| other in remaining;
      if all[other].expires < all[first].expires {
        first := other;
      }
      remaining := remaining - {other};
    }
  }

  predicate Rested(lastCleanup: Option<Time>, now: Time) {
    lastCleanup.None? || now >= lastCleanup.value + CLEANUP_INTERVAL
  }

  // What `cleanupExpired` removes: the unlocked rows that expired first, all
  // of them when they fit in one batch.
  ghost predicate CleanupBatch(rows: Rows, now: Time, locked: set<RowKey>, batch: set<RowKey>) {
    && |batch| <= CLEANUP_BATCH_SIZE
    && (forall k :: k in batch ==> k in rows && rows[k].expires <= now && k !in locked)
    && (forall k :: k in rows && rows[k].expires <= now && k !in locked && k !in batch ==>
          |batch| == CLEANUP_BATCH_SIZE && forall b :: b in batch ==> rows[b].expires <= rows[k].expires)
  }

  // A row that is still open stands for the same window, except that it stops
  // counting one above the limit while the table stops at the limit.
  ghost predicate SameWindow(rows: Rows, scope: Scope, t: Table, key: Key, now: Time, s: Settings) {
    && ((scope, key) in rows && now < rows[(scope, key)].expires <==> Live(t, key, now, s))
    && (Live(t, key, now, s) ==>
          var row := rows[(scope, key)];
          && row.started == t[key].started
          && row.expires == t[key].started + s.window
          && t[key].requests == Min(row.requests, s.limit))
  }

  ghost predicate SameWindows(rows: Rows, scope: Scope, t: Table, now: Time, s: Settings) {
    forall key :: SameWindow(rows, scope, t, key, now, s)
  }

  lemma SameWindowsLater(rows: Rows, scope: Scope, t: Table, now: Time, later: Time, s: Settings)
    requires SameWindows(rows, scope, t, now, s) && now <= later
    ensures SameWindows(rows, scope, t, later, s)
  {
    forall key ensures SameWindow(rows, scope, t, key, later, s) {
      assert SameWindow(rows, scope, t, key, now, s);
    }
  }

  lemma RowsStepLikeTable(rows: Rows, t: Table, r: Request, s: Settings)
    requires SameWindows(rows, r.scope, t, r.now, s) && !s.Disabled()
    ensures var (rows', answer) := RowsStep(rows, r, s);
            var (t', expected) := TableStep(t, r.key, r.now, s);
            answer == expected && SameWindows(rows', r.scope, t', r.now, s)
  {
    var kept := Cleaned(rows, r.now, r.cleaned);
    var (rows', answer) := RowsStep(rows, r, s);
    var (t', expected) := TableStep(t, r.key, r.now, s);
    assert SameWindow(rows, r.scope, t, r.key, r.now, s);
    forall key ensures SameWindow(rows', r.scope, t', key, r.now, s) {
      assert SameWindow(rows, r.scope, t, key, r.now, s);
    }
  }

  lemma {:induction false} RowsAnswersLikeTable(rows: Rows, t: Table, trace: seq<Request>, scope: Scope,
                                                settings: Scope -> Settings, from: Time)
    requires Chronological(trace, from)
    requires SameWindows(rows, scope, t, from, settings(scope))
    ensures RowsAnswers(rows, trace, scope, settings) == TableAnswers(t, trace, scope, settings(scope))
    decreases |trace|
  {
    if trace != [] {
      var r, s := trace[0], settings(scope);
      assert Chronological(trace[1..], r.now);
      SameWindowsLater(rows, scope, t, from, r.now, s);
      var (rows', answer) := RowsStep(rows, r, settings(r.scope));
      if r.scope == scope && !s.Disabled() {
        RowsStepLikeTable(rows, t, r, s);
        RowsAnswersLikeTable(rows', TableStep(t, r.key, r.now, s).0, trace[1..], scope, settings, r.now);
      } else {
        assert SameWindows(rows', scope, t, r.now, s) by {
          forall key ensures SameWindow(rows', scope, t, key, r.now, s) {
            assert SameWindow(rows, scope, t, key, r.now, s);
          }
        }
        RowsAnswersLikeTable(rows', t, trace[1..], scope, settings, r.now);
      }
    }
  }

  /**
   * A fresh process-local limiter and a fresh database limiter give every
   * request of a scope the same answer and the same retry delay, whatever the
   * other scopes do and whatever expired entries either side has dropped.
   */
  lemma LimitersAgree(trace: seq<Request>, scope: Scope, settings: Scope -> Settings, from: Time)
    requires Chronological(trace, from)
    ensures MemoryAnswers(EMPTY_MEMORY, trace, scope, settings(scope)) == RowsAnswers(map[], trace, scope, settings)
  {
    MemoryAnswersLikeTable(EMPTY_MEMORY, map[], trace, scope, settings(scope), from);
    RowsAnswersLikeTable(map[], map[], trace, scope, settings, from);
  }

  // ----- What the limiter promises its callers -----

  // How many of a key's requests inside [low, high] are admitted.
  function AdmittedWithin(t: Table, trace: seq<Request>, key: Key, low: Time, high: Time, s: Settings): nat
    decreases |trace|
  {
    if trace == [] then 0
    else
      var r := trace[0];
      var (t', answer) := TableStep(t, r.key, r.now, s);
      (if r.key == key && low <= r.now <= high && answer.Admitted? then 1 else 0)
      + AdmittedWithin(t', trace[1..], key, low, high, s)
  }

  // While the interval ends inside the key's current window, only what is left
  // of that window can be admitted; while it ends inside the next one, at most
  // one further window can.
  lemma {:induction false} AdmittedBeforeExpiry(t: Table, trace: seq<Request>, key: Key, low: Time, high: Time,
                                                s: Settings, from: Time)
    requires !s.Disabled() && Chronological(trace, from)
    requires key in t && 0 <= t[key].requests <= s.limit
    requires high < t[key].started + 2 * s.window
    ensures high < t[key].started + s.window ==>
              AdmittedWithin(t, trace, key, low, high, s) <= s.limit - t[key].requests
    ensures AdmittedWithin(t, trace, key, low, high, s) <= 2 * s.limit - t[key].requests
    decreases |trace|
  {
    if trace != [] {
      var r := trace[0];
      assert Chronological(trace[1..], r.now);
      var (t', _) := TableStep(t, r.key, r.now, s);
      if r.key == key && r.now > high {
        NothingAdmittedAfter(t', trace[1..], key, low, high, s, r.now);
      } else {
        AdmittedBeforeExpiry(t', trace[1..], key, low, high, s, r.now);
      }
    }
  }

  lemma {:induction false} NothingAdmittedAfter(t: Table, trace: seq<Request>, key: Key, low: Time, high: Time,
                                                s: Settings, from: Time)
    requires Chronological(trace, from) && high < from
    ensures AdmittedWithin(t, trace, key, low, high, s) == 0
    decreases |trace|
  {
    if trace != [] {
      NothingAdmittedAfter(TableStep(t, trace[0].key, trace[0].now, s).0, trace[1..], key, low, high, s, trace[0].now);
    }
  }

  ghost predicate Counted(t: Table, s: Settings) {
    forall k :: k in t ==> 1 <= t[k].requests <= s.limit
  }

  /** Any closed interval one window long admits at most twice the limit per key. */
  lemma {:induction false} AtMostTwiceTheLimit(t: Table, trace: seq<Request>, key: Key, low: Time, s: Settings,
                                               from: Time)
    requires !s.Disabled() && Chronological(trace, from) && Counted(t, s)
    ensures AdmittedWithin(t, trace, key, low, low + s.window, s) <= 2 * s.limit
    decreases |trace|
  {
    if trace != [] {
      var r := trace[0];
      assert Chronological(trace[1..], r.now);
      var (t', _) := TableStep(t, r.key, r.now, s);
      if r.key == key && low <= r.now {
        AdmittedBeforeExpiry(t', trace[1..], key, low, low + s.window, s, r.now);
      } else {
        AtMostTwiceTheLimit(t', trace[1..], key, low, s, r.now);
      }
    }
  }

  function TableAfter(t: Table, trace: seq<Request>, s: Settings): Table
    decreases |trace|
  {
    if trace == [] then t else TableAfter(TableStep(t, trace[0].key, trace[0].now, s).0, trace[1..], s)
  }

  /**
   * The retry delay is exact: after a refusal every request of the key that
   * comes before the reported time is refused too, and the first one at or
   * after it is admitted.
   */
  lemma {:induction false} RetryDelayIsExact(t: Table, refused: Time, trace: seq<Request>, key: Key, retry: Time,
                                             s: Settings)
    requires Chronological(trace, refused)
    requires TableStep(t, key, refused, s).1.Denied?
    requires refused <= retry && forall i :: 0 <= i < |trace| ==> trace[i].now <= retry
    requires forall i :: 0 <= i < |trace| && trace[i].key == key ==>
               trace[i].now < refused + TableStep(t, key, refused, s).1.retryAfter
    ensures TableStep(TableAfter(t, trace, s), key, retry, s).1.Admitted?
            <==> retry >= refused + TableStep(t, key, refused, s).1.retryAfter
    decreases |trace|
  {
    if trace != [] {
      var r := trace[0];
      var (t', _) := TableStep(t, r.key, r.now, s);
      assert t'[key] == t[key];
      assert Chronological(trace[1..], refused);
      RetryDelayIsExact(t', refused, trace[1..], key, retry, s);
    }
  }

  // ----- The same bounds, for what the two limiters answer -----

  function OfScope(trace: seq<Request>, scope: Scope): seq<Request> {
    if trace == [] then []
    else (if trace[0].scope == scope then [trace[0]] else []) + OfScope(trace[1..], scope)
  }

  // How many of a key's requests inside [low, high] a scope's answers admit.
  function AdmittedBy(answers: seq<Answer>, trace: seq<Request>, scope: Scope, key: Key, low: Time, high: Time): nat
    decreases |trace|
  {
    if trace == [] || answers == [] then 0
    else if trace[0].scope != scope then AdmittedBy(answers, trace[1..], scope, key, low, high)
    else (if trace[0].key == key && low <= trace[0].now <= high && answers[0].Admitted? then 1 else 0)
         + AdmittedBy(answers[1..], trace[1..], scope, key, low, high)
  }

  lemma {:induction false} AdmittedByTable(t: Table, trace: seq<Request>, scope: Scope, key: Key, low: Time, high: Time,
                                           s: Settings)
    ensures AdmittedBy(TableAnswers(t, trace, scope, s), trace, scope, key, low, high)
            == AdmittedWithin(t, OfScope(trace, scope), key, low, high, s)
    decreases |trace|
  {
    if trace != [] {
      var r := trace[0];
      if r.scope == scope {
        var (t', answer) := TableStep(t, r.key, r.now, s);
        assert TableAnswers(t, trace, scope, s)[1..] == TableAnswers(t', trace[1..], scope, s);
        assert OfScope(trace, scope)[1..] == OfScope(trace[1..], scope);
        AdmittedByTable(t', trace[1..], scope, key, low, high, s);
      } else {
        assert OfScope(trace, scope) == OfScope(trace[1..], scope);
        AdmittedByTable(t, trace[1..], scope, key, low, high, s);
      }
    }
  }

  lemma {:induction false} ScopeIsChronological(trace: seq<Request>, scope: Scope, from: Time)
    requires Chronological(trace, from)
    ensures Chronological(OfScope(trace, scope), from)
    decreases |trace|
  {
    if trace != [] {
      ScopeIsChronological(trace[1..], scope, trace[0].now);
    }
  }

  ghost predicate AtMostTwice(answers: seq<Answer>, trace: seq<Request>, scope: Scope, s: Settings) {
    forall key, low, high :: high == low + s.window ==> AdmittedBy(answers, trace, scope, key, low, high) <= 2 * s.limit
  }

  /** Either limiter, started afresh, admits at most twice the limit per key in an interval one window long. */
  lemma LimitersAdmitAtMostTwice(trace: seq<Request>, scope: Scope, settings: Scope -> Settings, from: Time)
    requires settings(scope).limit >= 1 && settings(scope).window >= 1 && Chronological(trace, from)
    ensures AtMostTwice(MemoryAnswers(EMPTY_MEMORY, trace, scope, settings(scope)), trace, scope, settings(scope))
    ensures AtMostTwice(RowsAnswers(map[], trace, scope, settings), trace, scope, settings(scope))
  {
    var s := settings(scope);
    TableAdmitsAtMostTwice(trace, scope, s, from);
    MemoryAnswersLikeTable(EMPTY_MEMORY, map[], trace, scope, s, from);
    LimitersAgree(trace, scope, settings, from);
  }

  lemma TableAdmitsAtMostTwice(trace: seq<Request>, scope: Scope, s: Settings, from: Time)
    requires !s.Disabled() && Chronological(trace, from)
    ensures AtMostTwice(TableAnswers(map[], trace, scope, s), trace, scope, s)
  {
    ScopeIsChronological(trace, scope, from);
    forall key, low, high | high == low + s.window
      ensures AdmittedBy(TableAnswers(map[], trace, scope, s), trace, scope, key, low, high) <= 2 * s.limit
    {
      AdmittedByTable(map[], trace, scope, key, low, high, s);
      AtMostTwiceTheLimit(map[], OfScope(trace, scope), key, low, s, from);
    }
  }

  // The requests a window has counted were all admitted since it started.
  lemma {:induction false} WindowCountsAdmissions(t: Table, trace: seq<Request>, key: Key, low: Time, high: Time,
                                                  s: Settings, from: Time)
    requires !s.Disabled() && Chronological(trace, from) && (key in t ==> t[key].started <= from)
    requires key in TableAfter(t, trace, s) && low <= TableAfter(t, trace, s)[key].started
    requires forall i :: 0 <= i < |trace| ==> trace[i].now <= high
    ensures
      var window := TableAfter(t, trace, s)[key];
      && (key in t ==> t[key].started <= window.started)
      && window.requests <= AdmittedWithin(t, trace, key, low, high, s)
                            + if key in t && t[key].started == window.started then t[key].requests else 0
    decreases |trace|
  {
    if trace != [] {
      var r := trace[0];
      var (t', answer) := TableStep(t, r.key, r.now, s);
      assert Chronological(trace[1..], r.now);
      WindowCountsAdmissions(t', trace[1..], key, low, high, s, r.now);
    }
  }

  lemma {:induction false} AdmissionsOfTheWindow(trace: seq<Request>, refused: Request, s: Settings, from: Time)
    requires Chronological(trace + [refused], from)
    requires TableStep(TableAfter(map[], trace, s), refused.key, refused.now, s).1.Denied?
    ensures AdmittedWithin(map[], trace, refused.key, refused.now - s.window + 1, refused.now, s) >= s.limit
  {
    var all := trace + [refused];
    assert all[|trace|] == refused && forall i :: 0 <= i < |trace| ==> all[i] == trace[i];
    WindowCountsAdmissions(map[], trace, refused.key, refused.now - s.window + 1, refused.now, s, from);
  }

  // A limit and a window of at least one are enforced, anything less is off.
  lemma {:induction false} DisabledAdmitsEverything(t: Table, trace: seq<Request>, scope: Scope, s: Settings)
    requires s.limit < 1 || s.window < 1
    ensures forall i :: 0 <= i < |TableAnswers(t, trace, scope, s)| ==> TableAnswers(t, trace, scope, s)[i].Admitted?
    decreases |trace|
  {
    if trace != [] { DisabledAdmitsEverything(t, trace[1..], scope, s); }
  }

  function LastOf(answers: seq<Answer>): Option<Answer> { if answers == [] then None else Some(answers[|answers| - 1]) }

  // The last answer is the plain table's, after the scope's earlier requests.
  lemma {:induction false} LastTableAnswer(t: Table, trace: seq<Request>, r: Request, s: Settings)
    ensures LastOf(TableAnswers(t, trace + [r], r.scope, s))
            == Some(TableStep(TableAfter(t, OfScope(trace, r.scope), s), r.key, r.now, s).1)
    decreases |trace|
  {
    if trace == [] {
      assert trace + [r] == [r] && TableAnswers(TableStep(t, r.key, r.now, s).0, [r][1..], r.scope, s) == [];
    } else {
      assert (trace + [r])[1..] == trace[1..] + [r];
      if trace[0].scope == r.scope {
        var (t', answer) := TableStep(t, trace[0].key, trace[0].now, s);
        assert OfScope(trace, r.scope)[1..] == OfScope(trace[1..], r.scope);
        LastTableAnswer(t', trace[1..], r, s);
        assert TableAnswers(t, trace + [r], r.scope, s) == [answer] + TableAnswers(t', trace[1..] + [r], r.scope, s);
      } else {
        assert OfScope(trace, r.scope) == OfScope(trace[1..], r.scope);
        LastTableAnswer(t, trace[1..], r, s);
      }
    }
  }

  lemma {:induction false} ScopeSplits(first: seq<Request>, second: seq<Request>, scope: Scope)
    ensures OfScope(first + second, scope) == OfScope(first, scope) + OfScope(second, scope)
    decreases |first|
  {
    if first == [] {
      assert first + second == second;
    } else {
      var head := if first[0].scope == scope then [first[0]] else [];
      assert (first + second)[1..] == first[1..] + second;
      ScopeSplits(first[1..], second, scope);
      assert OfScope(first + second, scope) == head + OfScope(first[1..] + second, scope);
      assert OfScope(first, scope) + OfScope(second, scope)
             == head + (OfScope(first[1..], scope) + OfScope(second, scope));
    }
  }

  lemma {:induction false} TableAfterSplits(t: Table, first: seq<Request>, second: seq<Request>, s: Settings)
    ensures TableAfter(t, first + second, s) == TableAfter(TableAfter(t, first, s), second, s)
    decreases |first|
  {
    if first == [] {
      assert first + second == second;
    } else {
      assert (first + second)[1..] == first[1..] + second;
      TableAfterSplits(TableStep(t, first[0].key, first[0].now, s).0, first[1..], second, s);
    }
  }

  lemma {:induction false} InScope(trace: seq<Request>, scope: Scope)
    ensures forall r :: r in OfScope(trace, scope) <==> r in trace && r.scope == scope
    decreases |trace|
  {
    if trace != [] {
      InScope(trace[1..], scope);
      assert forall r :: r in trace <==> r == trace[0] || r in trace[1..];
    }
  }

  // The key's requests between a refusal and a retry all come too early.
  predicate EarlyRetries(refused: Request, between: seq<Request>, delay: Time) {
    forall r :: r in between && r.scope == refused.scope && r.key == refused.key ==> r.now < refused.now + delay
  }

  lemma TableRetry(before: seq<Request>, refused: Request, between: seq<Request>, retry: Request, s: Settings,
                   from: Time, delay: Time)
    requires Chronological(before + [refused] + between + [retry], from)
    requires retry.scope == refused.scope && retry.key == refused.key && EarlyRetries(refused, between, delay)
    requires LastOf(TableAnswers(map[], before + [refused], refused.scope, s)) == Some(Denied(delay))
    ensures
      var answer := LastOf(TableAnswers(map[], before + [refused] + between + [retry], refused.scope, s));
      answer.Some? && (answer.value.Admitted? <==> retry.now >= refused.now + delay)
  {
    var scope := refused.scope;
    var t := TableAfter(map[], OfScope(before, scope), s);
    var waiting := OfScope(between, scope);
    LastTableAnswer(map[], before, refused, s);
    LastTableAnswer(map[], before + [refused] + between, retry, s);
    RefusalLeavesTable(before, refused, between, s);
    InScope(between, scope);
    WaitIsChronological(before, refused, between, retry, from);
    assert forall i :: 0 <= i < |waiting| ==> waiting[i] in waiting;
    RetryDelayIsExact(t, refused.now, waiting, refused.key, retry.now, s);
  }

  lemma RefusalLeavesTable(before: seq<Request>, refused: Request, between: seq<Request>, s: Settings)
    requires TableStep(TableAfter(map[], OfScope(before, refused.scope), s), refused.key, refused.now, s).1.Denied?
    ensures TableAfter(map[], OfScope(before + [refused] + between, refused.scope), s)
            == TableAfter(TableAfter(map[], OfScope(before, refused.scope), s), OfScope(between, refused.scope), s)
  {
    var scope := refused.scope;
    ScopeSplits(before + [refused], between, scope);
    ScopeSplits(before, [refused], scope);
    TableAfterSplits(map[], OfScope(before + [refused], scope), OfScope(between, scope), s);
    TableAfterSplits(map[], OfScope(before, scope), [refused], s);
    assert OfScope([refused], scope) == [refused] by { assert [refused][1..] == []; }
    var t := TableAfter(map[], OfScope(before, scope), s);
    assert TableAfter(t, [refused], s) == t by { assert [refused][1..] == []; }
  }

  lemma WaitIsChronological(before: seq<Request>, refused: Request, between: seq<Request>, retry: Request, from: Time)
    requires Chronological(before + [refused] + between + [retry], from)
    ensures Chronological(OfScope(between, refused.scope), refused.now)
    ensures refused.now <= retry.now && forall r :: r in OfScope(between, refused.scope) ==> r.now <= retry.now
  {
    var all := before + [refused] + between + [retry];
    var n := |before|;
    assert all[n] == refused && all[n + 1..n + 1 + |between|] == between && all[n + 1 + |between|] == retry;
    assert forall i :: 0 <= i < |between| ==> between[i] == all[n + 1 + i];
    ScopeIsChronological(between, refused.scope, refused.now);
    InScope(between, refused.scope);
  }

  /**
   * The delay either limiter reports is exact: with no other request of the key
   * admitted in between, a retry is admitted exactly from the reported time on.
   */
  lemma LimitersRetryDelayIsExact(before: seq<Request>, refused: Request, between: seq<Request>, retry: Request,
                                  settings: Scope -> Settings, from: Time, delay: Time)
    requires Chronological(before + [refused] + between + [retry], from)
    requires retry.scope == refused.scope && retry.key == refused.key && EarlyRetries(refused, between, delay)
    requires LastOf(MemoryAnswers(EMPTY_MEMORY, before + [refused], refused.scope, settings(refused.scope)))
             == Some(Denied(delay))
    ensures LastOf(RowsAnswers(map[], before + [refused], refused.scope, settings)) == Some(Denied(delay))
    ensures
      var all := before + [refused] + between + [retry];
      var memory := LastOf(MemoryAnswers(EMPTY_MEMORY, all, refused.scope, settings(refused.scope)));
      var rows := LastOf(RowsAnswers(map[], all, refused.scope, settings));
      memory == rows && memory.Some? && (memory.value.Admitted? <==> retry.now >= refused.now + delay)
  {
    var scope, s := refused.scope, settings(refused.scope);
    var all := before + [refused] + between + [retry];
    var early := before + [refused];
    assert Chronological(early, from) by {
      assert forall i :: 0 <= i < |early| ==> early[i] == all[i];
    }
    MemoryAnswersLikeTable(EMPTY_MEMORY, map[], early, scope, s, from);
    MemoryAnswersLikeTable(EMPTY_MEMORY, map[], all, scope, s, from);
    LimitersAgree(early, scope, settings, from);
    LimitersAgree(all, scope, settings, from);
    LastTableAnswer(map[], early + between, retry, s);
    TableRetry(before, refused, between, retry, s, from, delay);
  }

  /**
   * Either limiter refuses a request only when the limit is used up: then at
   * least that many requests of the key were admitted within one window before
   * it. With a limit or a window below one it refuses nothing.
   */
  lemma LimitersRefuseOnlyUsedUpLimits(before: seq<Request>, refused: Request, settings: Scope -> Settings, from: Time,
                                       delay: Time)
    requires Chronological(before + [refused], from)
    requires LastOf(MemoryAnswers(EMPTY_MEMORY, before + [refused], refused.scope, settings(refused.scope)))
             == Some(Denied(delay))
    ensures LastOf(RowsAnswers(map[], before + [refused], refused.scope, settings)) == Some(Denied(delay))
    ensures
      var scope, key, s := refused.scope, refused.key, settings(refused.scope);
      var memory, rows := MemoryAnswers(EMPTY_MEMORY, before, scope, s), RowsAnswers(map[], before, scope, settings);
      && s.limit >= 1 && s.window >= 1
      && AdmittedBy(memory, before, scope, key, refused.now - s.window + 1, refused.now) >= s.limit
      && AdmittedBy(rows, before, scope, key, refused.now - s.window + 1, refused.now) >= s.limit
  {
    var scope, s := refused.scope, settings(refused.scope);
    var all := before + [refused];
    assert Chronological(before, from) by {
      assert forall i :: 0 <= i < |before| ==> before[i] == all[i];
    }
    LimitersAgree(all, scope, settings, from);
    LimitersAgree(before, scope, settings, from);
    MemoryAnswersLikeTable(EMPTY_MEMORY, map[], all, scope, s, from);
    MemoryAnswersLikeTable(EMPTY_MEMORY, map[], before, scope, s, from);
    TableRefusesOnlyUsedUpLimits(before, refused, s, from);
  }

  lemma TableRefusesOnlyUsedUpLimits(before: seq<Request>, refused: Request, s: Settings, from: Time)
    requires Chronological(before + [refused], from)
    requires
      var answer := LastOf(TableAnswers(map[], before + [refused], refused.scope, s));
      answer.Some? && answer.value.Denied?
    ensures s.limit >= 1 && s.window >= 1
    ensures AdmittedBy(TableAnswers(map[], before, refused.scope, s), before, refused.scope, refused.key,
                       refused.now - s.window + 1, refused.now) >= s.limit
  {
    var scope := refused.scope;
    if s.limit < 1 || s.window < 1 { DisabledAdmitsEverything(map[], before + [refused], scope, s); }
    LastTableAnswer(map[], before, refused, s);
    ScopeIsChronological(before + [refused], scope, from);
    ScopeSplits(before, [refused], scope);
    assert OfScope([refused], scope) == [refused] by { assert [refused][1..] == []; }
    AdmissionsOfTheWindow(OfScope(before, scope), refused, s, from);
    AdmittedByTable(map[], before, scope, refused.key, refused.now - s.window + 1, refused.now, s);
  }

  /** The Retry-After header never sends a caller back early, nor a second late. */
  function RetryAfterSeconds(retryAfter: Time): (seconds: int)
    ensures seconds >= 1 && seconds * 1_000_000_000 >= retryAfter
    ensures retryAfter > 0 ==> (seconds - 1) * 1_000_000_000 < retryAfter
  {
    // Rounding up, with a floor of one second.
    var rounded := -((-retryAfter) / SECOND);
    if rounded < 1 then 1 else rounded
  }
}
