/**
 * The hotspot tracker: a listener that counts, per grid cell, the
 * infections reported in that cell.
 *
 * The tracker's map is specified by `Tally`, the map built from the
 * sequence of cells reported so far; the class keeps its map equal to the
 * tally of a ghost log of those reports.
 */
module DiseaseTracker {
  import opened Geography

  /** The tracker after one more infection in `cell`: a missing counter starts at 0, then goes up by one. */
  function Increment(tracker: map<Point, int>, cell: Point): (r: map<Point, int>)
    ensures r.Keys == tracker.Keys + {cell}
    ensures cell in tracker ==> r[cell] == tracker[cell] + 1
    ensures cell !in tracker ==> r[cell] == 1
    ensures forall p :: p in tracker && p != cell ==> r[p] == tracker[p]
  {
    tracker[cell := (if cell in tracker then tracker[cell] else 0) + 1]
  }

  /** The tracker after infections in `cells`, reported in order, starting from an empty one. */
  function Tally(cells: seq<Point>): map<Point, int>
    decreases |cells|
  {
    if cells == [] then map[] else Increment(Tally(cells[..|cells| - 1]), cells[|cells| - 1])
  }

  /** The tracker holds a counter exactly for the cells reported, and each counts that cell's reports. */
  lemma {:induction false} TallyCounts(cells: seq<Point>)
    ensures Tally(cells).Keys == Elements(cells)
    ensures forall p :: p in Tally(cells) ==> Tally(cells)[p] == multiset(cells)[p] >= 1
    decreases |cells|
  {
    if cells != [] {
      var init, last := cells[..|cells| - 1], cells[|cells| - 1];
      assert cells == init + [last];
      TallyCounts(init);
      assert multiset(cells) == multiset(init) + multiset{last};
    }
  }

  /** The sum of the counters of `m` over `keys`. */
  ghost function SumOver(m: map<Point, int>, keys: set<Point>): int
    requires keys <= m.Keys
    decreases keys
  {
    if keys == {} then 0 else var k :| k in keys; m[k] + SumOver(m, keys - {k})
  }

  /** The sum does not depend on which key is taken first. */
  lemma {:induction false} SumOverTake(m: map<Point, int>, keys: set<Point>, j: Point)
    requires keys <= m.Keys && j in keys
    ensures SumOver(m, keys) == m[j] + SumOver(m, keys - {j})
    decreases keys
  {
    var k :| k in keys && SumOver(m, keys) == m[k] + SumOver(m, keys - {k});
    if k != j {
      SumOverTake(m, keys - {k}, j);
      SumOverTake(m, keys - {j}, k);
      assert keys - {k} - {j} == keys - {j} - {k};
    }
  }

  /** Maps that agree on `keys` have the same sum over them. */
  lemma {:induction false} SumOverAgree(m1: map<Point, int>, m2: map<Point, int>, keys: set<Point>)
    requires keys <= m1.Keys && keys <= m2.Keys
    requires forall k :: k in keys ==> m1[k] == m2[k]
    ensures SumOver(m1, keys) == SumOver(m2, keys)
    decreases keys
  {
    if keys != {} {
      var k :| k in keys && SumOver(m1, keys) == m1[k] + SumOver(m1, keys - {k});
      SumOverAgree(m1, m2, keys - {k});
      SumOverTake(m2, keys, k);
    }
  }

  /** The counters add up to the number of infections reported. */
  lemma {:induction false} TallySum(cells: seq<Point>)
    ensures SumOver(Tally(cells), Tally(cells).Keys) == |cells|
    decreases |cells|
  {
    if cells != [] {
      var init, last := cells[..|cells| - 1], cells[|cells| - 1];
      var before, after := Tally(init), Tally(cells);
      TallySum(init);
      assert after == Increment(before, last);
      if last in before {
        assert after.Keys == before.Keys;
        SumOverTake(after, after.Keys, last);
        SumOverTake(before, before.Keys, last);
        SumOverAgree(before, after, before.Keys - {last});
      } else {
        SumOverTake(after, after.Keys, last);
        assert after.Keys - {last} == before.Keys;
        SumOverAgree(before, after, before.Keys);
      }
    }
  }

  /** The population counts a listener is told about; not part of this model. */
  type Counts

  /** `Hotspot`: the per-cell infection counters of one simulation. */
  class Hotspot {
    var diseaseHotspotTracker: map<Point, int>
    /** The cells reported through `CitizenGotInfected`, in order. */
    ghost var infections: seq<Point>

    ghost predicate Valid()
      reads this
    {
      diseaseHotspotTracker == Tally(infections)
    }

    /** `Hotspot::new`: no counters yet. */
    constructor ()
      ensures Valid() && infections == []
      ensures diseaseHotspotTracker == map[]
    {
      diseaseHotspotTracker := map[];
      infections := [];
    }

    /** `counts_updated`: the tracker ignores count updates. */
    method CountsUpdated(counts: Counts)
      ensures diseaseHotspotTracker == old(diseaseHotspotTracker)
    {
    }

    /** `simulation_ended`: nothing to do when the simulation ends. */
    method SimulationEnded()
      ensures diseaseHotspotTracker == old(diseaseHotspotTracker)
    {
    }

    /**
     * `citizen_got_infected`: the counter of `cell` goes up by one (created
     * at 1 when missing); every other counter stays, no key is removed, and
     * the counters keep adding up to the number of reports.
     */
    method CitizenGotInfected(cell: Point)
      requires Valid()
      modifies this
      ensures Valid() && infections == old(infections) + [cell]
      ensures diseaseHotspotTracker == Increment(old(diseaseHotspotTracker), cell)
      ensures SumOver(diseaseHotspotTracker, diseaseHotspotTracker.Keys) == |infections|
    {
      var counter := if cell in diseaseHotspotTracker then diseaseHotspotTracker[cell] else 0;
      diseaseHotspotTracker := diseaseHotspotTracker[cell := counter + 1];
      infections := infections + [cell];
      assert infections[..|infections| - 1] == old(infections);
      TallySum(infections);
    }
  }

  /** The `should_initialize` scenario: a new tracker has no entries. */
  method ShouldInitialize() returns (size: int)
    ensures size == 0
  {
    var tracker := new Hotspot();
    size := |tracker.diseaseHotspotTracker|;
  }

  /** The `should_add_new_entry` scenario: one report in (0, 1) gives that cell the counter 1. */
  method ShouldAddNewEntry() returns (present: bool, count: int)
    ensures present && count == 1
  {
    var tracker := new Hotspot();
    var currentPoint := Point(0, 1);
    tracker.CitizenGotInfected(currentPoint);
    present := currentPoint in tracker.diseaseHotspotTracker;
    count := if present then tracker.diseaseHotspotTracker[currentPoint] else 0;
  }

  /** The `should_update_tracker` scenario: two reports in (0, 1) give that cell the counter 2. */
  method ShouldUpdateTracker() returns (present: bool, count: int)
    ensures present && count == 2
  {
    var tracker := new Hotspot();
    var currentPoint := Point(0, 1);
    tracker.CitizenGotInfected(currentPoint);
    tracker.CitizenGotInfected(currentPoint);
    present := currentPoint in tracker.diseaseHotspotTracker;
    count := if present then tracker.diseaseHotspotTracker[currentPoint] else 0;
  }
}
