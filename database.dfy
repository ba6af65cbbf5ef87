/**
  The two tables of the bot's database (database.py): `users`, one row per Telegram user keyed
  by `user_id`, and the append-only `activity_logs`, each row pointing at a user. A `Session`
  holds both tables as the handlers see them and change them.
*/
module Database {
  import opened Wrappers

  /** The statuses the code gives a user. The column itself is a free string. */
  const PENDING: string := "pending"
  const APPROVED: string := "approved"
  const REJECTED: string := "rejected"
  const BANNED: string := "banned"

  /** Column defaults of a new row of `users`. */
  const DEFAULT_STATUS: string := PENDING
  const DEFAULT_CREDIT: real := 0.0
  const DEFAULT_LANGUAGE: string := "fa"

  /** A row of `users`; `credit_minutes` is a float column, modelled as an exact real. */
  datatype User = User(
    userId: int,
    firstName: string,
    username: Option<string>,
    status: string,
    creditMinutes: real,
    preferredLanguage: string)

  /** What a log row's free-text `details` is written from; the text itself is display formatting. */
  datatype LogDetails =
    | MediaDetails(durationSeconds: nat, fileName: string)
    | TokensConsumed(tokens: nat)
    | ApprovedBy(adminId: int)
    | RejectedBy(adminId: int)
    | AddedBy(adminId: int)
    | SetBy(adminId: int)

  /** A row of `activity_logs`: `action_type` and `credit_change` are required, `details` is not. */
  datatype ActivityLog = ActivityLog(
    userId: int,
    actionType: string,
    creditChange: real,
    details: Option<LogDetails>)

  /** A row inserted with only the identifying columns set takes the column defaults. */
  function NewUser(userId: int, firstName: string, username: Option<string>): User
  {
    User(userId, firstName, username, DEFAULT_STATUS, DEFAULT_CREDIT, DEFAULT_LANGUAGE)
  }

  /** Both tables: `users` keyed by the unique `user_id`, `logs` in insertion order. */
  datatype Tables = Tables(users: map<int, User>, logs: seq<ActivityLog>)
  {
    /** `user_id` is the key of its row, and every log row references an existing user. */
    ghost predicate WellFormed()
    {
      && (forall id :: id in users ==> users[id].userId == id)
      && (forall i :: 0 <= i < |logs| ==> logs[i].userId in users)
    }
  }

  /** The log rows that do not belong to user `id`, in their original order. */
  function LogsWithout(logs: seq<ActivityLog>, id: int): seq<ActivityLog>
  {
    if |logs| == 0 then []
    else (if logs[0].userId == id then [] else [logs[0]]) + LogsWithout(logs[1..], id)
  }

  /** Every row of another user is kept as many times as it occurs, and none of `id`'s is. */
  lemma {:induction false} LogsWithoutCounts(logs: seq<ActivityLog>, id: int)
    ensures forall e :: multiset(LogsWithout(logs, id))[e] == if e.userId == id then 0 else multiset(logs)[e]
    decreases |logs|
  {
    if |logs| > 0 {
      LogsWithoutCounts(logs[1..], id);
      assert logs == [logs[0]] + logs[1..];
    }
  }

  /** A log with no row of `id` is left exactly as it is. */
  lemma {:induction false} LogsWithoutNoRows(logs: seq<ActivityLog>, id: int)
    requires forall i :: 0 <= i < |logs| ==> logs[i].userId != id
    ensures LogsWithout(logs, id) == logs
  {
    if |logs| > 0 {
      LogsWithoutNoRows(logs[1..], id);
      assert [logs[0]] + logs[1..] == logs;
    }
  }

  /** Removing a user's rows from two runs of the log removes them from each run separately,
      so the kept rows stay in their original order. */
  lemma {:induction false} LogsWithoutConcat(a: seq<ActivityLog>, b: seq<ActivityLog>, id: int)
    ensures LogsWithout(a + b, id) == LogsWithout(a, id) + LogsWithout(b, id)
    decreases |a|
  {
    if |a| == 0 {
      assert a + b == b;
    } else {
      var ab := a + b;
      assert ab[0] == a[0] && ab[1..] == a[1..] + b;
      LogsWithoutConcat(a[1..], b, id);
      var head: seq<ActivityLog> := if a[0].userId == id then [] else [a[0]];
      var x, y := LogsWithout(a[1..], id), LogsWithout(b, id);
      assert LogsWithout(ab, id) == head + (x + y);
      assert LogsWithout(a, id) == head + x;
      assert head + (x + y) == (head + x) + y;
    }
  }

  /** Deleting a user also deletes that user's log rows (`cascade="all, delete-orphan"`),
      so the tables stay well formed. */
  function DeleteUser(t: Tables, id: int): (r: Tables)
    ensures r.users == t.users - {id}
    ensures forall e :: e in r.logs <==> e in t.logs && e.userId != id
    ensures forall e :: multiset(r.logs)[e] == if e.userId == id then 0 else multiset(t.logs)[e]
    ensures t.WellFormed() ==> r.WellFormed()
  {
    var r := Tables(t.users - {id}, LogsWithout(t.logs, id));
    LogsWithoutCounts(t.logs, id);
    forall e ensures e in r.logs <==> e in t.logs && e.userId != id {
      assert e in r.logs <==> multiset(r.logs)[e] > 0;
      assert e in t.logs <==> multiset(t.logs)[e] > 0;
    }
    assert t.WellFormed() ==> r.WellFormed() by {
      if t.WellFormed() {
        forall i | 0 <= i < |r.logs| ensures r.logs[i].userId in r.users {
          assert r.logs[i] in r.logs;
        }
      }
    }
    r
  }

  /** A database session: the two tables as the handlers read and change them. */
  class Session {
    var users: map<int, User>
    var logs: seq<ActivityLog>

    /** An empty database, as after `create_db_and_tables`. */
    constructor ()
      ensures users == map[] && logs == []
      ensures Valid()
    {
      users := map[];
      logs := [];
    }

    function State(): Tables
      reads this
    {
      Tables(users, logs)
    }

    ghost predicate Valid()
      reads this
    {
      State().WellFormed()
    }
  }
}
