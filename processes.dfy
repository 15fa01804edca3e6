/** Process enumeration and ranking, as both samplers do it: walk `psutil.process_iter`,
    skip a process that vanished (`NoSuchProcess`) or cannot be read (`AccessDenied`),
    keep every other in enumeration order, then rank with a stable descending sort cut
    to the first three. Percentages are amounts of tenths of a percent. */
module Processes {
  import opened Wrappers
  import Seqs
  import Ranking

  datatype ProcessRecord = ProcessRecord(name: string, cpu: nat, memory: nat)

  /** Reading one process: its record, or the exception that reading it raised. */
  datatype ProcessRead = Read(record: ProcessRecord) | NoSuchProcess | AccessDenied | OtherError

  const RankingSize: nat := 3

  function Kept(i: nat, p: ProcessRead): Option<ProcessRecord> {
    if p.Read? then Some(p.record) else None
  }

  /** The records the loop appends, in enumeration order. */
  function Survivors(items: seq<ProcessRead>): seq<ProcessRecord> {
    Seqs.SelectMap(items, Kept)
  }

  /** Some read raised an exception that the loop does not catch. */
  predicate Aborted(items: seq<ProcessRead>) {
    exists i | 0 <= i < |items| :: items[i].OtherError?
  }

  /** The enumeration loop: the surviving records, or None when an exception other than
      NoSuchProcess/AccessDenied escapes it. */
  method Enumerate(items: seq<ProcessRead>) returns (r: Option<seq<ProcessRecord>>)
    ensures r == if Aborted(items) then None else Some(Survivors(items))
  {
    var processes: seq<ProcessRecord> := [];
    for i := 0 to |items|
      invariant processes == Survivors(items[..i])
      invariant forall j | 0 <= j < i :: !items[j].OtherError?
    {
      assert items[..i + 1][..i] == items[..i];
      match items[i]
      case Read(rec) => processes := processes + [rec];
      case NoSuchProcess =>
      case AccessDenied =>
      case OtherError => return None;
    }
    assert items[..|items|] == items;
    return Some(processes);
  }

  /** The survivors are exactly the records that were read, in enumeration order: a
      vanished or denied process is left out, and nothing else is. */
  lemma SurvivorsExact(items: seq<ProcessRead>)
    ensures var p := Seqs.Positions(items, Kept);
      && Seqs.StrictlyIncreasing(p)
      && (forall i | 0 <= i < |items| :: i in p <==> items[i].Read?)
      && |Survivors(items)| == |p|
      && (forall k | 0 <= k < |p| :: items[p[k]] == Read(Survivors(items)[k]))
  {
    Seqs.PositionsExact(items, Kept);
    Seqs.SelectMapAtPositions(items, Kept);
  }

  function ByCpu(p: ProcessRecord): int { p.cpu }

  function ByMemory(p: ProcessRecord): int { p.memory }

  /** `sorted(processes, key=lambda x: x["cpu"], reverse=True)[:3]`. */
  function TopCpu(processes: seq<ProcessRecord>): seq<ProcessRecord> {
    Ranking.Top(processes, ByCpu, RankingSize)
  }

  /** `sorted(processes, key=lambda x: x["memory"], reverse=True)[:3]`. */
  function TopMemory(processes: seq<ProcessRecord>): seq<ProcessRecord> {
    Ranking.Top(processes, ByMemory, RankingSize)
  }

  /** A ranking holds at most three records, in non-increasing order of the key, all of
      them enumerated; nothing left out outranks a kept record; equal keys keep
      enumeration order. */
  lemma RankingSpec(processes: seq<ProcessRecord>, key: ProcessRecord -> int)
    ensures var r := Ranking.Top(processes, key, RankingSize);
      && |r| == Ranking.Min(3, |processes|)
      && Ranking.NonIncreasing(r, key)
      && multiset(r) <= multiset(processes)
      && (forall x, i | x in multiset(processes) - multiset(r) && 0 <= i < |r| :: key(x) <= key(r[i]))
      && (forall v :: Ranking.WithKey(r, key, v) <= Ranking.WithKey(processes, key, v))
  {
    var r := Ranking.Top(processes, key, RankingSize);
    Ranking.TopSorted(processes, key, RankingSize);
    forall x | x in multiset(processes) - multiset(r) {
      Ranking.TopDominates(processes, key, RankingSize, x);
    }
    forall v {
      Ranking.TopStable(processes, key, RankingSize, v);
    }
  }
}
