/**
 * Per-task execution statistics (the FutureStat rows that `Future.execute`
 * maintains). The table is a map from task name to row; the relative `F()`
 * updates of the source become plain sequential increments.
 */
module Stats {

  /** One FutureStat row. */
  datatype Stat = Stat(name: string, total: int, running: int, failed: int, firstSeen: int, lastSeen: int)

  /** The row `get_or_create(name=...)` makes when none exists yet. */
  function NewStat(name: string, now: int): (s: Stat)
    ensures s.name == name && s.total == 0 && s.running == 0 && s.failed == 0
  {
    Stat(name, 0, 0, 0, now, now)
  }

  /** The row `get_or_create(name=...)` would start from: the stored row, or a fresh one with zero counters. */
  function Current(rows: map<string, Stat>, name: string): Stat {
    if name in rows then rows[name] else NewStat(name, 0)
  }

  /** Rows whose counters are consistent when nothing is in flight. */
  ghost predicate Quiescent(rows: map<string, Stat>) {
    forall n :: n in rows ==> rows[n].running == 0 && 0 <= rows[n].failed <= rows[n].total
  }

  /**
   * `get_or_create` followed by `update(last_seen=now, total=F('total') + 1,
   * running=F('running') + 1)`.
   */
  function RecordStart(rows: map<string, Stat>, name: string, now: int): (r: map<string, Stat>)
    ensures r.Keys == rows.Keys + {name}
    ensures r[name].total == Current(rows, name).total + 1
    ensures r[name].running == Current(rows, name).running + 1
    ensures r[name].failed == Current(rows, name).failed
    ensures r[name].lastSeen == now
    ensures forall n :: n in rows && n != name ==> r[n] == rows[n]
  {
    var s := if name in rows then rows[name] else NewStat(name, now);
    rows[name := s.(lastSeen := now, total := s.total + 1, running := s.running + 1)]
  }

  /** The `finally` update: `running=F('running') - 1`, and `failed=F('failed') + 1` after a raise. */
  function RecordEnd(rows: map<string, Stat>, name: string, failed: bool): (r: map<string, Stat>)
    requires name in rows
    ensures r.Keys == rows.Keys
    ensures r[name].total == rows[name].total
    ensures r[name].running == rows[name].running - 1
    ensures r[name].failed == rows[name].failed + (if failed then 1 else 0)
    ensures forall n :: n in rows && n != name ==> r[n] == rows[n]
  {
    var s := rows[name];
    rows[name := s.(running := s.running - 1, failed := s.failed + (if failed then 1 else 0))]
  }

  /**
   * A start and its matching end count one more run, one more failure exactly
   * when the function raised, and leave `running` where it was.
   */
  lemma StartEnd(rows: map<string, Stat>, name: string, now: int, failed: bool)
    ensures var after := RecordEnd(RecordStart(rows, name, now), name, failed);
      && after.Keys == rows.Keys + {name}
      && after[name].total == Current(rows, name).total + 1
      && after[name].running == Current(rows, name).running
      && after[name].failed == Current(rows, name).failed + (if failed then 1 else 0)
      && (forall n :: n in rows && n != name ==> after[n] == rows[n])
  {
  }

  /** A bracketed run keeps a quiescent table quiescent. */
  lemma StartEndQuiescent(rows: map<string, Stat>, name: string, now: int, failed: bool)
    requires Quiescent(rows)
    ensures Quiescent(RecordEnd(RecordStart(rows, name, now), name, failed))
  {
    StartEnd(rows, name, now, failed);
    var after := RecordEnd(RecordStart(rows, name, now), name, failed);
    forall n | n in after ensures after[n].running == 0 && 0 <= after[n].failed <= after[n].total {
      if n != name {
        assert after[n] == rows[n];
      }
    }
  }

  /** The FutureStat table, updated in place. */
  class StatTable {
    var rows: map<string, Stat>

    constructor ()
      ensures rows == map[]
    {
      rows := map[];
    }

    method Start(name: string, now: int)
      modifies this
      ensures rows == RecordStart(old(rows), name, now)
    {
      var s := if name in rows then rows[name] else NewStat(name, now);
      rows := rows[name := s.(lastSeen := now, total := s.total + 1, running := s.running + 1)];
    }

    method Finish(name: string, failed: bool)
      requires name in rows
      modifies this
      ensures rows == RecordEnd(old(rows), name, failed)
    {
      var s := rows[name];
      rows := rows[name := s.(running := s.running - 1, failed := s.failed + (if failed then 1 else 0))];
    }
  }
}
