/** The dashboard's activity summary: `fetchLogs` turns the rows the
    `command_logs` query returns into the records it lists and the three
    counters it shows. */
module Dashboard {
  import opened Wrappers

  /** A row as the query returns it. The status column is free text and
      `details` may be null. */
  datatype FetchedRow = FetchedRow(id: string, command: string, status: string, timestamp: string, details: Option<string>)

  /** The record the dashboard lists. The cast of `status` checks nothing,
      so the status is kept as the text the row holds. */
  datatype CommandLog = CommandLog(id: string, command: string, status: string, timestamp: string, details: string)

  datatype Stats = Stats(total: nat, success: nat, pending: nat)

  /** What the query answers: its `data` (null when absent) and its `error`. */
  datatype QueryResult = QueryResult(data: Option<seq<FetchedRow>>, error: Option<string>)

  /** One row mapped to a record: every field copied, a missing `details` read as `''`. */
  function ToCommandLog(row: FetchedRow): (log: CommandLog)
    ensures log.id == row.id && log.command == row.command
    ensures log.status == row.status && log.timestamp == row.timestamp
    ensures row.details.None? ==> log.details == ""
    ensures row.details.Some? ==> log.details == row.details.value
  {
    CommandLog(row.id, row.command, row.status, row.timestamp, row.details.GetOr(""))
  }

  /** `data.map(...)`: the records in the order of the rows, one per row. */
  function ToCommandLogs(rows: seq<FetchedRow>): (logs: seq<CommandLog>)
    ensures |logs| == |rows|
    ensures forall i :: 0 <= i < |rows| ==> logs[i] == ToCommandLog(rows[i])
    decreases |rows|
  {
    if rows == [] then [] else [ToCommandLog(rows[0])] + ToCommandLogs(rows[1..])
  }

  /** `data.filter((l) => l.status === status)`. */
  function Filter(rows: seq<FetchedRow>, status: string): (kept: seq<FetchedRow>)
    ensures |kept| <= |rows|
    ensures forall i :: 0 <= i < |kept| ==> kept[i].status == status
    decreases |rows|
  {
    if rows == [] then []
    else if rows[0].status == status then [rows[0]] + Filter(rows[1..], status)
    else Filter(rows[1..], status)
  }

  /** The filter keeps every row with that status, as often as it occurs,
      and nothing else. */
  lemma {:induction false} FilterKeepsExactlyMatching(rows: seq<FetchedRow>, status: string, row: FetchedRow)
    ensures multiset(Filter(rows, status))[row] == if row.status == status then multiset(rows)[row] else 0
    decreases |rows|
  {
    if rows != [] {
      FilterKeepsExactlyMatching(rows[1..], status, row);
      assert rows == [rows[0]] + rows[1..];
    }
  }

  /** Rows with one status and rows with another are never more than all rows. */
  lemma {:induction false} TwoFiltersBounded(rows: seq<FetchedRow>, s1: string, s2: string)
    requires s1 != s2
    ensures |Filter(rows, s1)| + |Filter(rows, s2)| <= |rows|
    decreases |rows|
  {
    if rows != [] {
      TwoFiltersBounded(rows[1..], s1, s2);
    }
  }

  /** The three counters computed from the fetched rows. */
  function ComputeStats(rows: seq<FetchedRow>): (stats: Stats)
    ensures stats.total == |rows|
    ensures stats.success == |Filter(rows, "success")| && stats.pending == |Filter(rows, "pending")|
    ensures stats.success + stats.pending <= stats.total
  {
    TwoFiltersBounded(rows, "success", "pending");
    Stats(|rows|, |Filter(rows, "success")|, |Filter(rows, "pending")|)
  }

  /** The number of listed records with a status. */
  function CountStatus(logs: seq<CommandLog>, status: string): (n: nat)
    ensures n <= |logs|
    ensures n == 0 <==> forall i :: 0 <= i < |logs| ==> logs[i].status != status
    ensures n == |logs| <==> forall i :: 0 <= i < |logs| ==> logs[i].status == status
    decreases |logs|
  {
    if logs == [] then 0
    else
      assert forall i :: 1 <= i < |logs| ==> logs[i] == logs[1..][i - 1];
      (if logs[0].status == status then 1 else 0) + CountStatus(logs[1..], status)
  }

  /** Records of one status and records of another are never more than all records. */
  lemma {:induction false} TwoCountsBounded(logs: seq<CommandLog>, s1: string, s2: string)
    requires s1 != s2
    ensures CountStatus(logs, s1) + CountStatus(logs, s2) <= |logs|
    decreases |logs|
  {
    if logs != [] {
      TwoCountsBounded(logs[1..], s1, s2);
    }
  }

  /** The counters the listed records call for: all of them, and those
      `success` and those `pending`, which together are never more than all. */
  function StatsOf(logs: seq<CommandLog>): (stats: Stats)
    ensures stats.total == |logs|
    ensures stats.success == CountStatus(logs, "success") && stats.pending == CountStatus(logs, "pending")
    ensures stats.success + stats.pending <= stats.total
  {
    TwoCountsBounded(logs, "success", "pending");
    Stats(|logs|, CountStatus(logs, "success"), CountStatus(logs, "pending"))
  }

  /** Counting the fetched rows, as `fetchLogs` does, agrees with counting
      the records mapped from them. */
  lemma {:induction false} FilterCountsMappedRecords(rows: seq<FetchedRow>, status: string)
    ensures |Filter(rows, status)| == CountStatus(ToCommandLogs(rows), status)
    decreases |rows|
  {
    if rows != [] {
      FilterCountsMappedRecords(rows[1..], status);
      assert ToCommandLogs(rows)[1..] == ToCommandLogs(rows[1..]);
    }
  }

  lemma ComputeStatsMatchesRecords(rows: seq<FetchedRow>)
    ensures ComputeStats(rows) == StatsOf(ToCommandLogs(rows))
  {
    FilterCountsMappedRecords(rows, "success");
    FilterCountsMappedRecords(rows, "pending");
  }

  /** The dashboard component's state: the listed records and the counters. */
  class DashboardState {
    var logs: seq<CommandLog>
    var stats: Stats

    /** The counters always describe the listed records. */
    ghost predicate Valid()
      reads this
    {
      stats == StatsOf(logs) && stats.success + stats.pending <= stats.total
    }

    /** `useState([])` and `useState({ total: 0, success: 0, pending: 0 })`. */
    constructor ()
      ensures Valid()
      ensures logs == [] && stats == Stats(0, 0, 0)
    {
      logs := [];
      stats := Stats(0, 0, 0);
    }

    /** The state update of `fetchLogs` once the query has answered: with
        data and no error, the records and counters are replaced; otherwise
        nothing changes. */
    method FetchLogs(result: QueryResult)
      requires Valid()
      modifies this
      ensures Valid()
      ensures result.error.None? && result.data.Some? ==>
        logs == ToCommandLogs(result.data.value) && stats == ComputeStats(result.data.value)
      ensures !(result.error.None? && result.data.Some?) ==>
        logs == old(logs) && stats == old(stats)
    {
      if result.error.None? && result.data.Some? {
        var data := result.data.value;
        logs := ToCommandLogs(data);
        var total := |data|;
        var success := |Filter(data, "success")|;
        var pending := |Filter(data, "pending")|;
        stats := Stats(total, success, pending);
        ComputeStatsMatchesRecords(data);
      }
    }
  }
}
