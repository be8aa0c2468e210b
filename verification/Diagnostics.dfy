/** The bounded diagnostics map of the usage service refines a plain log of all refreshes. */
module Diagnostics {
  import opened Tables

  const CAPACITY := 200

  datatype Report = Report(checkedAt: nat, provider: string, exchanges: seq<string>, error: Option<string>)

  // One refresh: the SIM and the report about it.
  datatype Check = Check(sim: nat, report: Report)

  function Ids(log: seq<Check>): set<nat> {
    set i | 0 <= i < |log| :: log[i].sim
  }

  /** The log with only the last entry of each SIM, in the order of those entries. */
  function LastOfEach(log: seq<Check>): seq<Check> {
    if log == [] then []
    else if log[0].sim in Ids(log[1..]) then LastOfEach(log[1..])
    else [log[0]] + LastOfEach(log[1..])
  }

  function Last<T>(n: nat, s: seq<T>): seq<T> {
    if |s| <= n then s else s[|s| - n..]
  }

  // Map.prototype.delete on a map kept in insertion order.
  function Without(entries: seq<Check>, sim: nat): (rest: seq<Check>)
    ensures forall e :: e in rest <==> e in entries && e.sim != sim
  {
    if entries == [] then []
    else if entries[0].sim == sim then Without(entries[1..], sim)
    else [entries[0]] + Without(entries[1..], sim)
  }

  predicate DistinctIds(entries: seq<Check>) {
    forall i, j | 0 <= i < j < |entries| :: entries[i].sim != entries[j].sim
  }

  lemma IdsSplit(a: seq<Check>, b: seq<Check>)
    ensures Ids(a + b) == Ids(a) + Ids(b)
  {
    assert forall i | 0 <= i < |a| :: (a + b)[i] == a[i];
    assert forall i | 0 <= i < |b| :: (a + b)[|a| + i] == b[i];
  }

  lemma {:induction false} SameIds(log: seq<Check>)
    ensures Ids(LastOfEach(log)) == Ids(log) && DistinctIds(LastOfEach(log))
  {
    if log != [] {
      var first, rest := [log[0]], LastOfEach(log[1..]);
      SameIds(log[1..]);
      assert log == first + log[1..];
      IdsSplit(first, log[1..]);
      IdsSplit(first, rest);
      if log[0].sim !in Ids(log[1..]) {
        forall i, j | 0 <= i < j < |first + rest| ensures (first + rest)[i].sim != (first + rest)[j].sim {
          assert rest[j - 1].sim in Ids(rest);
        }
      }
    }
  }

  lemma {:induction false} WithoutAbsent(entries: seq<Check>, sim: nat)
    requires sim !in Ids(entries)
    ensures Without(entries, sim) == entries
  {
    if entries != [] {
      assert entries[0].sim in Ids(entries);
      assert entries == [entries[0]] + entries[1..];
      IdsSplit([entries[0]], entries[1..]);
      WithoutAbsent(entries[1..], sim);
    }
  }

  /** A refresh moves its SIM to the end of the log's last entries. */
  lemma {:induction false} LastOfEachAppend(log: seq<Check>, e: Check)
    ensures LastOfEach(log + [e]) == Without(LastOfEach(log), e.sim) + [e]
  {
    if log == [] {
      assert log + [e] == [e];
      assert [e][1..] == [];
    } else {
      var rest, longer := log[1..], log + [e];
      LastOfEachAppend(rest, e);
      IdsSplit(rest, [e]);
      assert longer[1..] == rest + [e] && longer[0] == log[0];
      assert [e][0].sim in Ids([e]);
      if log[0].sim !in Ids(rest) {
        assert LastOfEach(log) == [log[0]] + LastOfEach(rest);
        assert ([log[0]] + LastOfEach(rest))[1..] == LastOfEach(rest);
      }
    }
  }

  lemma {:induction false} WithoutSplits(a: seq<Check>, b: seq<Check>, sim: nat)
    ensures Without(a + b, sim) == Without(a, sim) + Without(b, sim)
  {
    if a == [] {
      assert a + b == b;
    } else {
      assert (a + b)[1..] == a[1..] + b;
      WithoutSplits(a[1..], b, sim);
    }
  }

  // Taking out one of several distinct SIMs takes out one entry.
  lemma {:induction false} WithoutOne(entries: seq<Check>, sim: nat)
    requires DistinctIds(entries)
    ensures |Without(entries, sim)| == |entries| - (if sim in Ids(entries) then 1 else 0)
  {
    if entries != [] {
      var rest := entries[1..];
      assert forall i | 0 <= i < |rest| :: rest[i] == entries[i + 1];
      assert entries == [entries[0]] + rest;
      IdsSplit([entries[0]], rest);
      WithoutOne(rest, sim);
    }
  }

  // delete, set, and evict the oldest entry when there are too many.
  function Recorded(entries: seq<Check>, e: Check): seq<Check> {
    var longer := Without(entries, e.sim) + [e];
    if |longer| > CAPACITY then longer[1..] else longer
  }

  lemma Shift(before: seq<Check>, kept: seq<Check>, e: Check)
    requires |kept| == CAPACITY
    ensures Last(CAPACITY, before + kept + [e]) == kept[1..] + [e]
  {
    var longer := before + kept + [e];
    assert longer == (before + [kept[0]]) + (kept[1..] + [e]);
    assert longer[|longer| - CAPACITY..] == kept[1..] + [e];
  }

  lemma EvictedStaysOut(gone: seq<Check>, kept: seq<Check>, e: Check)
    requires |kept| == CAPACITY && e.sim !in Ids(kept)
    ensures Recorded(kept, e) == Last(CAPACITY, Without(gone + kept, e.sim) + [e])
  {
    WithoutSplits(gone, kept, e.sim);
    WithoutAbsent(kept, e.sim);
    assert (kept + [e])[1..] == kept[1..] + [e];
    Shift(Without(gone, e.sim), kept, e);
  }

  lemma DistinctParts(gone: seq<Check>, kept: seq<Check>)
    requires DistinctIds(gone + kept)
    ensures DistinctIds(kept) && forall i, j | 0 <= i < |gone| && 0 <= j < |kept| :: gone[i].sim != kept[j].sim
  {
    forall j, k | 0 <= j < k < |kept| ensures kept[j].sim != kept[k].sim {
      assert (gone + kept)[|gone| + j] == kept[j] && (gone + kept)[|gone| + k] == kept[k];
    }
    forall i, j | 0 <= i < |gone| && 0 <= j < |kept| ensures gone[i].sim != kept[j].sim {
      assert (gone + kept)[i] == gone[i] && (gone + kept)[|gone| + j] == kept[j];
    }
  }

  lemma KeptMoves(gone: seq<Check>, kept: seq<Check>, e: Check)
    requires |kept| == CAPACITY && e.sim in Ids(kept) && DistinctIds(gone + kept)
    ensures Recorded(kept, e) == Last(CAPACITY, Without(gone + kept, e.sim) + [e])
  {
    WithoutSplits(gone, kept, e.sim);
    DistinctParts(gone, kept);
    var i :| 0 <= i < |kept| && kept[i].sim == e.sim;
    WithoutAbsent(gone, e.sim);
    WithoutOne(kept, e.sim);
    assert gone + Without(kept, e.sim) + [e] == gone + (Without(kept, e.sim) + [e]);
  }

  /** Working on the last 200 entries only comes to the same as working on all of them. */
  lemma RecordedIsLast(all: seq<Check>, e: Check)
    requires DistinctIds(all)
    ensures Recorded(Last(200, all), e) == Last(200, Without(all, e.sim) + [e])
  {
    if |all| > CAPACITY {
      var gone, kept := all[..|all| - CAPACITY], Last(CAPACITY, all);
      assert all == gone + kept;
      if e.sim in Ids(kept) {
        KeptMoves(gone, kept, e);
      } else {
        EvictedStaysOut(gone, kept, e);
      }
    } else {
      WithoutOne(all, e.sim);
    }
  }

  class Diagnostics {
    var entries: seq<Check>
    ghost var log: seq<Check>

    ghost predicate Valid()
      reads this
    {
      entries == Last(200, LastOfEach(log))
    }

    constructor ()
      ensures Valid() && log == []
    {
      entries, log := [], [];
    }

    // Map.prototype.delete
    method Delete(sim: nat)
      modifies `entries
      ensures entries == Without(old(entries), sim)
    {
      var rest := [];
      for i := 0 to |entries|
        invariant entries == old(entries)
        invariant rest == Without(entries[..i], sim)
      {
        WithoutSplits(entries[..i], [entries[i]], sim);
        assert entries[..i + 1] == entries[..i] + [entries[i]];
        if entries[i].sim != sim {
          rest := rest + [entries[i]];
        }
      }
      assert entries[..|entries|] == entries;
      entries := rest;
    }

    /** The `finally` of a refresh. The map is always the last 200 SIMs refreshed, in the order of their
        last refresh, each with the report of that refresh. */
    method Record(sim: nat, report: Report)
      requires Valid()
      modifies this
      ensures Valid() && log == old(log) + [Check(sim, report)]
    {
      var e := Check(sim, report);
      SameIds(log);
      RecordedIsLast(LastOfEach(log), e);
      LastOfEachAppend(log, e);
      Delete(sim);
      entries := entries + [e];
      if |entries| > CAPACITY {
        entries := entries[1..];
      }
      log := log + [e];
    }

    // What forSim shows: the report of the last refresh of the SIM, if it is among the last 200.
    method Get(sim: nat) returns (report: Option<Report>)
      requires Valid()
      ensures report.Some? ==> Check(sim, report.value) in Last(200, LastOfEach(log))
      ensures report.None? ==> sim !in Ids(Last(200, LastOfEach(log)))
    {
      for i := 0 to |entries|
        invariant forall j | 0 <= j < i :: entries[j].sim != sim
      {
        if entries[i].sim == sim {
          assert entries[i] == Check(sim, entries[i].report);
          return Some(entries[i].report);
        }
      }
      report := None;
    }
  }

  /** The entries of `LastOfEach` are the entries of the log that no later entry of their SIM follows. */
  lemma {:induction false} LastOfEachMeans(log: seq<Check>, e: Check)
    ensures e in LastOfEach(log)
            <==> exists i :: 0 <= i < |log| && log[i] == e && forall j | i < j < |log| :: log[j].sim != e.sim
  {
    if log != [] {
      LastOfEachMeans(log[1..], e);
      if log[0] == e && e.sim !in Ids(log[1..]) {
        assert forall j | 0 < j < |log| :: log[j] == log[1..][j - 1] && log[j].sim in Ids(log[1..]);
      }
      if i :| 0 <= i < |log[1..]| && log[1..][i] == e && forall j | i < j < |log[1..]| :: log[1..][j].sim != e.sim {
        assert log[i + 1] == e;
        assert forall j | i + 1 < j < |log| :: log[j] == log[1..][j - 1];
      }
      if i :| 0 <= i < |log| && log[i] == e && forall j | i < j < |log| :: log[j].sim != e.sim {
        if i == 0 {
          assert forall k | 0 <= k < |log[1..]| :: log[1..][k] == log[k + 1];
        } else {
          assert log[1..][i - 1] == e;
          assert forall j | i - 1 < j < |log[1..]| :: log[1..][j] == log[j + 1];
        }
      }
    }
  }
}
