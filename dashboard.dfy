/** The figures of components/dashboard/DashboardStats.tsx: slot, occupancy
    and free totals over the zones, and the number of open zones. */
module Dashboard {
  import opened Parking

  /** Which zone figure a total adds up. */
  datatype Figure = Slots | Occupied | Free

  function FigureOf(z: Zone, f: Figure): int
  {
    match f
    case Slots => z.totalSlots
    case Occupied => z.occupied
    case Free => z.free
  }

  /** `zones.reduce((sum, zone) => sum + zone.<figure>, 0)`, the dashboard's
      `totalSlots`, `totalOccupied` and `totalFree`: a left fold, so the last
      zone is added last. When no zone has a negative figure the total is at
      least every zone's figure; when none has a positive one it is at most 0. */
  function Total(zones: seq<Zone>, f: Figure): (t: int)
    ensures zones == [] ==> t == 0
    ensures |zones| == 1 ==> t == FigureOf(zones[0], f)
    ensures (forall i :: 0 <= i < |zones| ==> FigureOf(zones[i], f) >= 0) ==>
              t >= 0 && forall i :: 0 <= i < |zones| ==> FigureOf(zones[i], f) <= t
    ensures (forall i :: 0 <= i < |zones| ==> FigureOf(zones[i], f) <= 0) ==> t <= 0
    decreases |zones|
  {
    if zones == [] then 0
    else
      var init := zones[..|zones| - 1];
      assert forall i :: 0 <= i < |init| ==> init[i] == zones[i];
      Total(init, f) + FigureOf(zones[|zones| - 1], f)
  }

  /** The figures of all zones added up from the first zone on. */
  function Sum(zones: seq<Zone>, f: Figure): int
  {
    if zones == [] then 0 else FigureOf(zones[0], f) + Sum(zones[1..], f)
  }

  /** The dashboard's left fold is the plain sum of the zones' figures. */
  lemma {:induction false} TotalIsSum(zones: seq<Zone>, f: Figure)
    ensures Total(zones, f) == Sum(zones, f)
    decreases |zones|
  {
    if zones != [] {
      assert zones == zones[..1] + zones[1..];
      TotalAppend(zones[..1], zones[1..], f);
      TotalIsSum(zones[1..], f);
    }
  }

  /** `zones.filter((z) => z.open).length` */
  function OpenZones(zones: seq<Zone>): (n: nat)
    ensures n <= |zones|
    ensures n == |zones| <==> forall i :: 0 <= i < |zones| ==> zones[i].open
    ensures n == 0 <==> forall i :: 0 <= i < |zones| ==> !zones[i].open
  {
    if zones == [] then 0
    else
      var rest := OpenZones(zones[1..]);
      assert forall i :: 1 <= i < |zones| ==> zones[i] == zones[1..][i - 1];
      (if zones[0].open then 1 else 0) + rest
  }

  /** With no zones every figure is zero. */
  lemma EmptyDashboard()
    ensures Total([], Slots) == 0 && Total([], Occupied) == 0 && Total([], Free) == 0 && OpenZones([]) == 0
  {
  }

  /** Each total of two lists put together is the sum of their totals. */
  lemma {:induction false} TotalAppend(a: seq<Zone>, b: seq<Zone>, f: Figure)
    ensures Total(a + b, f) == Total(a, f) + Total(b, f)
    decreases |b|
  {
    if b == [] {
      assert a + b == a;
    } else {
      var b' := b[..|b| - 1];
      assert (a + b)[..|a + b| - 1] == a + b';
      TotalAppend(a, b', f);
    }
  }

  lemma {:induction false} OpenZonesAppend(a: seq<Zone>, b: seq<Zone>)
    ensures OpenZones(a + b) == OpenZones(a) + OpenZones(b)
    decreases |a|
  {
    if a == [] {
      assert a + b == b;
    } else {
      assert (a + b)[1..] == a[1..] + b;
      OpenZonesAppend(a[1..], b);
    }
  }

  /** When every zone's occupied and free slots make up its total, so do the
      dashboard's figures. */
  lemma {:induction false} TotalsBalance(zones: seq<Zone>)
    requires forall i :: 0 <= i < |zones| ==> zones[i].occupied + zones[i].free == zones[i].totalSlots
    ensures Total(zones, Occupied) + Total(zones, Free) == Total(zones, Slots)
    decreases |zones|
  {
    if zones != [] {
      TotalsBalance(zones[..|zones| - 1]);
    }
  }
}
