/** The tool registry's execution statistics (server/registry.go:347-373, 426-453). Registering a tool and
    recording an execution each hold both locks to the end, so each is one step. Durations and counts are
    unbounded. */
module ToolStats {
  import opened Wrappers

  /** A finished execution: how long it took, whether it failed, and when it was recorded. */
  datatype Execution = Execution(time: nat, failed: bool, at: nat)

  datatype Stats = Stats(executionCount: nat, totalTime: nat, averageTime: nat, errorCount: nat, lastExecuted: nat)

  /** The tool's own copy of its statistics; `lastExecuted` starts at the time of registration. */
  datatype ToolEntry = ToolEntry(executionCount: nat, averageExecTime: nat, lastExecuted: nat)

  datatype State = State(tools: map<string, ToolEntry>, stats: map<string, Stats>)

  datatype Step = Register(name: string, at: nat) | Record(name: string, execution: Execution)

  const EMPTY := Stats(0, 0, 0, 0, 0)

  function Update(s: Stats, e: Execution): Stats {
    var count, total := s.executionCount + 1, s.totalTime + e.time;
    Stats(count, total, total / count, s.errorCount + (if e.failed then 1 else 0), e.at)
  }

  function Mirror(s: Stats): ToolEntry {
    ToolEntry(s.executionCount, s.averageTime, s.lastExecuted)
  }

  function RecordStep(s: State, name: string, e: Execution): State {
    if name !in s.stats then s
    else
      var updated := Update(s.stats[name], e);
      State(if name in s.tools then s.tools[name := Mirror(updated)] else s.tools,
            s.stats[name := updated])
  }

  function Apply(s: State, step: Step): State {
    match step
    case Register(name, at) => State(s.tools[name := ToolEntry(0, 0, at)], s.stats[name := EMPTY])
    case Record(name, e) => RecordStep(s, name, e)
  }

  function Exec(s: State, steps: seq<Step>): State
    decreases |steps|
  {
    if steps == [] then s else Apply(Exec(s, steps[..|steps| - 1]), steps[|steps| - 1])
  }

  // ---- What the statistics say about the history ----

  /** The executions of a tool since it was last registered, if it ever was. */
  function History(steps: seq<Step>, name: string): Option<seq<Execution>>
    decreases |steps|
  {
    if steps == [] then None
    else
      var before, last := History(steps[..|steps| - 1], name), steps[|steps| - 1];
      if last.name != name then before
      else if last.Register? then Some([])
      else if before.None? then None
      else Some(before.value + [last.execution])
  }

  function TotalTime(h: seq<Execution>): nat {
    if h == [] then 0 else h[0].time + TotalTime(h[1..])
  }

  function Failures(h: seq<Execution>): nat {
    if h == [] then 0 else (if h[0].failed then 1 else 0) + Failures(h[1..])
  }

  lemma {:induction false} TotalsAdd(h: seq<Execution>, e: Execution)
    ensures TotalTime(h + [e]) == TotalTime(h) + e.time
    ensures Failures(h + [e]) == Failures(h) + (if e.failed then 1 else 0)
    decreases |h|
  {
    if h == [] {
      assert ([] + [e])[1..] == [];
    } else {
      assert (h + [e])[1..] == h[1..] + [e];
      TotalsAdd(h[1..], e);
    }
  }

  /** The statistics of a history. */
  predicate Summarizes(s: Stats, h: seq<Execution>) {
    && s.executionCount == |h| && s.totalTime == TotalTime(h) && s.errorCount == Failures(h)
    && (h != [] ==> s.lastExecuted == h[|h| - 1].at && IsAverage(s.averageTime, s.totalTime, s.executionCount))
    && (h == [] ==> s.averageTime == 0)
  }

  /** The average, rounded down. */
  predicate IsAverage(average: nat, total: nat, count: nat) {
    average * count <= total < (average + 1) * count
  }

  lemma {:induction false} QuotientIsAverage(total: nat, count: nat)
    requires count > 0
    ensures IsAverage(total / count, total, count)
  {
    var q, r := total / count, total % count;
    assert total == q * count + r && 0 <= r < count;
    assert (q + 1) * count == q * count + count;
  }

  lemma {:induction false} UpdateSummarizes(s: Stats, h: seq<Execution>, e: Execution)
    requires Summarizes(s, h)
    ensures Summarizes(Update(s, e), h + [e])
  {
    TotalsAdd(h, e);
    QuotientIsAverage(s.totalTime + e.time, s.executionCount + 1);
  }

  /** When a tool was last registered. */
  function RegisteredAt(steps: seq<Step>, name: string): nat
    decreases |steps|
  {
    if steps == [] then 0
    else
      var last := steps[|steps| - 1];
      if last.Register? && last.name == name then last.at else RegisteredAt(steps[..|steps| - 1], name)
  }

  predicate Mirrors(t: ToolEntry, s: Stats) {
    t.executionCount == s.executionCount && t.averageExecTime == s.averageTime
    && (s.executionCount > 0 ==> t.lastExecuted == s.lastExecuted)
  }

  /** After any steps, a tool has statistics exactly if it was registered, they summarize the executions
      recorded since then, and the tool's entry mirrors them; before the first, it has the time of registration. */
  lemma {:induction false} StatsSummarizeHistory(steps: seq<Step>, name: string)
    ensures var t := Exec(State(map[], map[]), steps);
            && (name in t.stats <==> History(steps, name).Some?)
            && (name in t.tools <==> name in t.stats)
            && (name in t.stats ==>
                  Summarizes(t.stats[name], History(steps, name).value) && Mirrors(t.tools[name], t.stats[name]))
            && (History(steps, name) == Some([]) ==> t.tools[name].lastExecuted == RegisteredAt(steps, name))
    decreases |steps|
  {
    if steps != [] {
      var before, last := steps[..|steps| - 1], steps[|steps| - 1];
      StatsSummarizeHistory(before, name);
      var s := Exec(State(map[], map[]), before);
      if last.Record? && last.name == name && name in s.stats {
        UpdateSummarizes(s.stats[name], History(before, name).value, last.execution);
      }
    }
  }

  // ---- The registry ----

  class ToolRegistry {
    var tools: map<string, ToolEntry>
    var executionStats: map<string, Stats>

    ghost function View(): State
      reads this
    {
      State(tools, executionStats)
    }

    constructor ()
      ensures View() == State(map[], map[])
    {
      tools, executionStats := map[], map[];
    }

    method RegisterTool(name: string, now: nat)
      modifies this
      ensures View() == Apply(old(View()), Register(name, now))
    {
      tools := tools[name := ToolEntry(0, 0, now)];
      executionStats := executionStats[name := Stats(0, 0, 0, 0, 0)];
    }

    method UpdateExecutionStats(name: string, execTime: nat, isError: bool, now: nat)
      modifies this
      ensures View() == RecordStep(old(View()), name, Execution(execTime, isError, now))
    {
      if name !in executionStats {
        return;
      }
      var stats := executionStats[name];
      var count, total := stats.executionCount + 1, stats.totalTime + execTime;
      stats := stats.(executionCount := count, totalTime := total, averageTime := total / count, lastExecuted := now);
      if isError {
        stats := stats.(errorCount := stats.errorCount + 1);
      }
      executionStats := executionStats[name := stats];
      if name in tools {
        tools := tools[name := ToolEntry(stats.executionCount, stats.averageTime, stats.lastExecuted)];
      }
    }
  }
}
