/** The statistics and short lists `fetchDashboardData` computes in
    frontend/src/pages/Dashboard.tsx from the three list endpoints. */
module Dashboard {
  import opened Json
  import opened Http
  import PartModel
  import EquipmentModel
  import MaintenanceModel
  import MaintenanceController

  /** `DashboardStats`. */
  datatype Stats = Stats(totalEquipment: nat, pendingMaintenance: nat, lowParts: nat, alertsCount: nat)

  /** What the page shows: the stats and the three short lists. */
  datatype View = View(
    stats: Stats,
    recentEquipment: seq<Doc<EquipmentModel.Equipment>>,
    lowStockParts: seq<Doc<PartModel.Part>>,
    pendingMaintenance: seq<Doc<MaintenanceController.Populated>>)

  /** The state before any data has arrived. */
  const Initial: View := View(Stats(0, 0, 0, 0), [], [], [])

  /** How many items shortlists hold (`slice(0, 5)`). */
  const ShortList: nat := 5

  /** `s.filter(p)`. */
  function Filter<T>(s: seq<T>, p: T -> bool): (r: seq<T>)
    ensures |r| <= |s|
    ensures forall i :: 0 <= i < |r| ==> p(r[i]) && r[i] in s
    ensures forall i :: 0 <= i < |s| && p(s[i]) ==> s[i] in r
  {
    if s == [] then []
    else if p(s[0]) then [s[0]] + Filter(s[1..], p)
    else Filter(s[1..], p)
  }

  /** The number of items of `s` satisfying `p`, counted position by
      position. */
  function Count<T>(s: seq<T>, p: T -> bool): nat
  {
    if s == [] then 0
    else (if p(s[0]) then 1 else 0) + Count(s[1..], p)
  }

  /** `s.slice(0, n)`. */
  function Take<T>(s: seq<T>, n: nat): (r: seq<T>)
    ensures |r| == if |s| < n then |s| else n
    ensures forall i :: 0 <= i < |r| ==> r[i] == s[i]
  {
    if |s| < n then s else s[..n]
  }

  /** The low-stock test `part.quantity <= part.minimumQuantity`, which is
      the Part schema's `needsReorder`. */
  predicate LowStock(d: Doc<PartModel.Part>) {
    d.record.quantity <= d.record.minimumQuantity
  }

  /** The pending test `status === 'Pending' || status === 'In Progress'`. */
  predicate Pending(d: Doc<MaintenanceController.Populated>) {
    var status := MaintenanceModel.StatusName(d.record.record.status);
    status == "Pending" || status == "In Progress"
  }

  /** A record whose stored status is In Progress. */
  predicate InProgress(d: Doc<MaintenanceController.Populated>) {
    d.record.record.status == MaintenanceModel.InProgress
  }

  /** The page after the three fetches; a failed fetch (`None`) ends in the
      `catch`, which leaves the initial state. */
  function Load(
    equipment: Option<seq<Doc<EquipmentModel.Equipment>>>,
    parts: Option<seq<Doc<PartModel.Part>>>,
    maintenance: Option<seq<Doc<MaintenanceController.Populated>>>): (v: View)
    ensures equipment.None? || parts.None? || maintenance.None? ==> v == Initial
    ensures equipment.Some? && parts.Some? && maintenance.Some? ==>
      && v.stats.totalEquipment == |equipment.value|
      && v.stats.lowParts == Count(parts.value, LowStock)
      && v.stats.pendingMaintenance == Count(maintenance.value, Pending)
      && v.stats.alertsCount == v.stats.lowParts + v.stats.pendingMaintenance
      && |v.recentEquipment| == Min(ShortList, |equipment.value|)
      && |v.lowStockParts| == Min(ShortList, v.stats.lowParts)
      && |v.pendingMaintenance| == Min(ShortList, v.stats.pendingMaintenance)
    ensures equipment.Some? && parts.Some? && maintenance.Some? ==>
      && v.recentEquipment == Take(equipment.value, ShortList)
      && v.lowStockParts == Take(Filter(parts.value, LowStock), ShortList)
      && v.pendingMaintenance == Take(Filter(maintenance.value, Pending), ShortList)
    ensures equipment.Some? && parts.Some? && maintenance.Some? ==>
      && (forall i :: 0 <= i < |v.lowStockParts| ==> LowStock(v.lowStockParts[i]) && v.lowStockParts[i] in parts.value)
      && (forall i :: 0 <= i < |v.pendingMaintenance| ==> Pending(v.pendingMaintenance[i]) && v.pendingMaintenance[i] in maintenance.value)
  {
    if equipment.None? || parts.None? || maintenance.None? then Initial
    else
      var low := Filter(parts.value, LowStock);
      var pending := Filter(maintenance.value, Pending);
      FilterCount(parts.value, LowStock);
      FilterCount(maintenance.value, Pending);
      View(
        Stats(|equipment.value|, |pending|, |low|, |low| + |pending|),
        Take(equipment.value, ShortList),
        Take(low, ShortList),
        Take(pending, ShortList))
  }

  function Min(a: nat, b: nat): nat {
    if a <= b then a else b
  }

  /** The filter's length is the count. */
  lemma {:induction false} FilterCount<T>(s: seq<T>, p: T -> bool)
    ensures |Filter(s, p)| == Count(s, p)
  {
    if s != [] {
      FilterCount(s[1..], p);
    }
  }

  /** The filter keeps order: filtering a concatenation concatenates the
      filtered parts. */
  lemma {:induction false} FilterConcat<T>(a: seq<T>, b: seq<T>, p: T -> bool)
    ensures Filter(a + b, p) == Filter(a, p) + Filter(b, p)
  {
    if a == [] {
      assert a + b == b;
    } else {
      assert (a + b)[1..] == a[1..] + b;
      FilterConcat(a[1..], b, p);
    }
  }

  /** Counts add up over a concatenation. */
  lemma {:induction false} CountConcat<T>(a: seq<T>, b: seq<T>, p: T -> bool)
    ensures Count(a + b, p) == Count(a, p) + Count(b, p)
  {
    if a == [] {
      assert a + b == b;
    } else {
      assert (a + b)[1..] == a[1..] + b;
      CountConcat(a[1..], b, p);
    }
  }

  /** Counts agree for tests that agree on every item. */
  lemma {:induction false} CountSame<T>(s: seq<T>, p: T -> bool, q: T -> bool)
    requires forall i :: 0 <= i < |s| ==> p(s[i]) == q(s[i])
    ensures Count(s, p) == Count(s, q)
  {
    if s != [] {
      CountSame(s[1..], p, q);
    }
  }

  /** The dashboard's low-stock test is the schema's `needsReorder`. */
  lemma LowStockIsNeedsReorder(d: Doc<PartModel.Part>)
    ensures LowStock(d) <==> PartModel.NeedsReorder(d.record)
  {
  }

  /** "Pending" is not a maintenance status, so the pending count is the
      number of records In Progress: Scheduled, Completed and Cancelled
      records are never counted. */
  lemma PendingIsInProgress(records: seq<Doc<MaintenanceController.Populated>>)
    ensures Count(records, Pending) == Count(records, InProgress)
  {
    forall i | 0 <= i < |records|
      ensures Pending(records[i]) == InProgress(records[i])
    {
      var st := records[i].record.record.status;
      assert MaintenanceModel.StatusName(st) == "Pending" <==> false by {
        match st
        case Scheduled =>
        case InProgress =>
        case Completed =>
        case Cancelled =>
      }
    }
    CountSame(records, Pending, InProgress);
  }

  /** The low-stock list is the first low-stock parts in listing order:
      every part before the last one shown that is low is shown. */
  lemma LowStockPrefix(parts: seq<Doc<PartModel.Part>>, k: nat)
    requires k <= |parts|
    requires Count(parts[..k], LowStock) <= ShortList
    ensures Count(parts[..k], LowStock) <= |Take(Filter(parts, LowStock), ShortList)|
    ensures Take(Filter(parts, LowStock), ShortList)[..Count(parts[..k], LowStock)] == Filter(parts[..k], LowStock)
  {
    assert parts == parts[..k] + parts[k..];
    FilterConcat(parts[..k], parts[k..], LowStock);
    FilterCount(parts[..k], LowStock);
  }

  /** Adding one low part to a listing raises both the low-stock count and
      the alert total by one. */
  lemma OneMoreLowPart(
    equipment: seq<Doc<EquipmentModel.Equipment>>, parts: seq<Doc<PartModel.Part>>,
    maintenance: seq<Doc<MaintenanceController.Populated>>, extra: Doc<PartModel.Part>)
    requires PartModel.NeedsReorder(extra.record)
    ensures Load(Some(equipment), Some(parts + [extra]), Some(maintenance)).stats.lowParts ==
      Load(Some(equipment), Some(parts), Some(maintenance)).stats.lowParts + 1
    ensures Load(Some(equipment), Some(parts + [extra]), Some(maintenance)).stats.alertsCount ==
      Load(Some(equipment), Some(parts), Some(maintenance)).stats.alertsCount + 1
  {
    CountConcat(parts, [extra], LowStock);
  }
}
