/** The bot's SQLite database as three in-memory tables: `users`, `tests` and
    `config`.  Each method of `Database` performs what its SQL statements do;
    the clock (SQLite's 'now') is an integer count of seconds given by the caller. */
module Store {
  import opened Text

  /** The config key holding the response template. */
  const MainTextKey: string := "main_text"

  /** A row of `users`; `lastTest` is the second of the user's latest test. */
  datatype UserRow = UserRow(username: Option<string>, testsCount: nat, lastTest: int)

  /** A row of `tests`; its position in the table stands for the autoincremented `test_id`. */
  datatype TestRow = TestRow(userId: int, result: int, timestamp: int)

  /** `SELECT AVG(result), COUNT(*)` over a window, with the average kept as the sum
      of the results it is taken over; `Stats(0, 0)` is the empty window. */
  datatype Stats = Stats(sum: int, count: nat)

  // ---------------------------------------------------------------------------
  // Specification of the tables

  /** `INSERT OR IGNORE INTO config VALUES ('main_text', defaultText)`. */
  function Seeded(config: map<string, string>, defaultText: string): map<string, string> {
    if MainTextKey in config then config else config[MainTextKey := defaultText]
  }

  /** `COALESCE((SELECT tests_count FROM users WHERE user_id = ?), 0) + 1`. */
  function NextCount(users: map<int, UserRow>, userId: int): nat {
    (if userId in users then users[userId].testsCount else 0) + 1
  }

  /** The number of rows of `tests` that belong to user `u`. */
  function CountOf(tests: seq<TestRow>, u: int): nat {
    if tests == [] then 0
    else CountOf(tests[..|tests| - 1], u) + (if tests[|tests| - 1].userId == u then 1 else 0)
  }

  /** The timestamp of the latest row of `tests` that belongs to user `u`. */
  function LastOf(tests: seq<TestRow>, u: int): Option<int> {
    if tests == [] then None
    else if tests[|tests| - 1].userId == u then Some(tests[|tests| - 1].timestamp)
    else LastOf(tests[..|tests| - 1], u)
  }

  /** The start of the window `datetime('now', '-<days> days')`. */
  function Cutoff(now: int, days: nat): (c: int)
    ensures c <= now && (days > 0 ==> c < now)
  {
    now - days * SecondsPerDay
  }

  /** The rows `WHERE timestamp >= cutoff`, in table order. */
  function Window(tests: seq<TestRow>, cutoff: int): seq<TestRow> {
    if tests == [] then []
    else
      var rest := Window(tests[..|tests| - 1], cutoff);
      if tests[|tests| - 1].timestamp >= cutoff then rest + [tests[|tests| - 1]] else rest
  }

  function SumResults(rows: seq<TestRow>): int {
    if rows == [] then 0 else SumResults(rows[..|rows| - 1]) + rows[|rows| - 1].result
  }

  /** What `get_stats(days)` reads at time `now`. */
  function Aggregate(tests: seq<TestRow>, now: int, days: nat): Stats {
    var rows := Window(tests, Cutoff(now, days));
    Stats(SumResults(rows), |rows|)
  }

  /** The users table agrees with the tests table: a user has a row exactly when
      some test of theirs is recorded, its count is the number of those tests and
      its `last_test` is the time of the latest one. */
  ghost predicate Consistent(users: map<int, UserRow>, tests: seq<TestRow>) {
    && (forall u :: u in users <==> CountOf(tests, u) > 0)
    && (forall u :: u in users ==>
          users[u].testsCount == CountOf(tests, u) && LastOf(tests, u) == Some(users[u].lastTest))
  }

  predicate ResultsInRange(tests: seq<TestRow>) {
    forall i :: 0 <= i < |tests| ==> 0 <= tests[i].result <= 100
  }

  // ---------------------------------------------------------------------------
  // Properties of the specification

  /** Running the seeding statement again, with any default text, changes nothing:
      a template already stored survives every later initialisation. */
  lemma SeedIdempotent(config: map<string, string>, first: string, again: string)
    ensures MainTextKey in Seeded(config, first)
    ensures Seeded(Seeded(config, first), again) == Seeded(config, first)
    ensures MainTextKey in config ==> Seeded(config, first)[MainTextKey] == config[MainTextKey]
  {
  }

  /** One recorded test keeps the users table consistent with the tests table. */
  lemma {:induction false} RecordKeepsConsistent(users: map<int, UserRow>, tests: seq<TestRow>,
                                                 userId: int, username: Option<string>, result: int, now: int)
    requires Consistent(users, tests)
    ensures Consistent(users[userId := UserRow(username, NextCount(users, userId), now)],
                       tests + [TestRow(userId, result, now)])
  {
    var tests' := tests + [TestRow(userId, result, now)];
    assert tests'[..|tests'| - 1] == tests;
    forall u
      ensures CountOf(tests', u) == CountOf(tests, u) + (if u == userId then 1 else 0)
      ensures LastOf(tests', u) == if u == userId then Some(now) else LastOf(tests, u)
    {
    }
  }

  /** A window holds no row exactly when every test is older than its start. */
  lemma {:induction false} WindowEmpty(tests: seq<TestRow>, cutoff: int)
    ensures Window(tests, cutoff) == [] <==> forall i :: 0 <= i < |tests| ==> tests[i].timestamp < cutoff
  {
    if tests != [] {
      var prefix := tests[..|tests| - 1];
      WindowEmpty(prefix, cutoff);
      assert forall i :: 0 <= i < |prefix| ==> prefix[i] == tests[i];
    }
  }

  /** `get_stats` of an empty window is `(0, 0)`, and conversely. */
  lemma EmptyWindowStats(tests: seq<TestRow>, now: int, days: nat)
    ensures Aggregate(tests, now, days) == Stats(0, 0)
        <==> forall i :: 0 <= i < |tests| ==> tests[i].timestamp < Cutoff(now, days)
  {
    WindowEmpty(tests, Cutoff(now, days));
  }

  /** A window selects the rows of the table not older than its start, each as many
      times as the table holds it, and no other rows. */
  lemma {:induction false} WindowRows(tests: seq<TestRow>, cutoff: int)
    ensures |Window(tests, cutoff)| <= |tests|
    ensures forall r :: r in Window(tests, cutoff) <==> r in tests && r.timestamp >= cutoff
    ensures forall r :: multiset(Window(tests, cutoff))[r]
                     == if r.timestamp >= cutoff then multiset(tests)[r] else 0
  {
    if tests != [] {
      var prefix := tests[..|tests| - 1];
      WindowRows(prefix, cutoff);
      assert tests == prefix + [tests[|tests| - 1]];
    }
  }

  /** A window that starts earlier holds at least as many rows. */
  lemma {:induction false} WindowMonotone(tests: seq<TestRow>, early: int, late: int)
    requires early <= late
    ensures |Window(tests, late)| <= |Window(tests, early)|
  {
    if tests != [] {
      WindowMonotone(tests[..|tests| - 1], early, late);
    }
  }

  /** A longer window counts at least as many tests: 7 days <= 30 days <= 365 days. */
  lemma LongerWindowCountsMore(tests: seq<TestRow>, now: int, short: nat, long: nat)
    requires short <= long
    ensures Aggregate(tests, now, short).count <= Aggregate(tests, now, long).count
  {
    WindowMonotone(tests, Cutoff(now, long), Cutoff(now, short));
  }

  /** With results in [0, 100] the average of a window lies in [0, 100]. */
  lemma {:induction false} SumInRange(rows: seq<TestRow>)
    requires ResultsInRange(rows)
    ensures 0 <= SumResults(rows) <= 100 * |rows|
  {
    if rows != [] {
      var prefix := rows[..|rows| - 1];
      assert forall i :: 0 <= i < |prefix| ==> prefix[i] == rows[i];
      SumInRange(prefix);
    }
  }

  lemma {:induction false} WindowInRange(tests: seq<TestRow>, cutoff: int)
    requires ResultsInRange(tests)
    ensures ResultsInRange(Window(tests, cutoff))
  {
    WindowRows(tests, cutoff);
    forall i | 0 <= i < |Window(tests, cutoff)|
      ensures 0 <= Window(tests, cutoff)[i].result <= 100
    {
      var r := Window(tests, cutoff)[i];
      assert r in Window(tests, cutoff);
      var j :| 0 <= j < |tests| && tests[j] == r;
    }
  }

  lemma AverageInRange(tests: seq<TestRow>, now: int, days: nat)
    requires ResultsInRange(tests)
    ensures var s := Aggregate(tests, now, days); 0 <= s.sum <= 100 * s.count
  {
    WindowInRange(tests, Cutoff(now, days));
    SumInRange(Window(tests, Cutoff(now, days)));
  }

  /** A test just recorded at `now` is counted in every window read at `now`. */
  lemma RecordedTestCounted(tests: seq<TestRow>, row: TestRow, now: int, days: nat)
    requires row.timestamp == now
    ensures Aggregate(tests + [row], now, days)
         == Stats(Aggregate(tests, now, days).sum + row.result, Aggregate(tests, now, days).count + 1)
  {
    assert (tests + [row])[..|tests|] == tests;
  }

  // ---------------------------------------------------------------------------
  // The database object

  class Database {
    var users: map<int, UserRow>
    var tests: seq<TestRow>
    var config: map<string, string>

    /** The users table agrees with the tests table, and every recorded result is one
        `random.randint(0, 100)` can draw. */
    ghost predicate Valid()
      reads this
    {
      Consistent(users, tests) && ResultsInRange(tests)
    }

    /** Opens a database file holding these tables (empty ones for a new file). */
    constructor Open(users0: map<int, UserRow>, tests0: seq<TestRow>, config0: map<string, string>)
      requires Consistent(users0, tests0) && ResultsInRange(tests0)
      ensures Valid()
      ensures users == users0 && tests == tests0 && config == config0
    {
      users, tests, config := users0, tests0, config0;
    }

    /** `CREATE TABLE IF NOT EXISTS` the three tables, then seed `main_text` if absent. */
    method InitDb(defaultText: string)
      modifies this
      ensures config == Seeded(old(config), defaultText)
      ensures users == old(users) && tests == old(tests)
    {
      config := Seeded(config, defaultText);
    }

    /** `SELECT value FROM config WHERE key = ?`. */
    method GetConfig(key: string) returns (value: Option<string>)
      ensures value.Some? <==> key in config
      ensures value.Some? ==> value.value == config[key]
    {
      value := if key in config then Some(config[key]) else None;
    }

    /** `INSERT OR REPLACE INTO config`: an upsert of one key. */
    method UpdateConfig(key: string, value: string)
      modifies this
      ensures config == old(config)[key := value]
      ensures users == old(users) && tests == old(tests)
    {
      config := config[key := value];
    }

    /** Upserts the user's row with the count incremented (1 for a new user) and
        `last_test` set to now, then appends one row to `tests`. */
    method AddTestResult(userId: int, username: Option<string>, result: int, now: int)
      requires Valid() && 0 <= result <= 100
      modifies this
      ensures Valid()
      ensures users == old(users)[userId := UserRow(username, NextCount(old(users), userId), now)]
      ensures tests == old(tests) + [TestRow(userId, result, now)]
      ensures config == old(config)
    {
      RecordKeepsConsistent(users, tests, userId, username, result, now);
      assert forall i :: 0 <= i < |tests| ==> (tests + [TestRow(userId, result, now)])[i] == tests[i];
      users := users[userId := UserRow(username, NextCount(users, userId), now)];
      tests := tests + [TestRow(userId, result, now)];
    }

    /** Count and summed results of the tests not older than `days` days. */
    method GetStats(days: nat, now: int) returns (stats: Stats)
      ensures stats == Aggregate(tests, now, days)
      ensures stats.count == 0 ==> stats == Stats(0, 0)
      ensures Valid() ==> 0 <= stats.sum <= 100 * stats.count
    {
      if Valid() {
        AverageInRange(tests, now, days);
      }
      stats := Aggregate(tests, now, days);
    }

    /** `SELECT tests_count, last_test FROM users WHERE user_id = ?`: the row, with
        `last_test` as the text SQLite stores, or None when there is no row. */
    method GetUserStats(userId: int) returns (row: Option<(nat, string)>)
      ensures row.None? <==> userId !in users
      ensures row.Some? ==> row.value == (users[userId].testsCount, SqlTimestamp(users[userId].lastTest))
    {
      row := if userId in users then Some((users[userId].testsCount, SqlTimestamp(users[userId].lastTest)))
             else None;
    }
  }
}
