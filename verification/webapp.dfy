/** The web-application driver: a 24-hour traffic pattern in which every
    hour is classed as business or off-hours, a fixed utilisation per
    class, and a two-threshold autoscaler that grows or shrinks a list of
    identical VMs. All scaling decisions are taken before the toolkit's
    simulation starts, so they depend on the hour index alone; the whole
    hour loop is a fold over hours 0..23.

    Utilisation is an exact `real` percentage standing in for a Java
    double. */
module WebAppScaling {
  import opened Entities

  const BusinessHourStart: int := 8
  const BusinessHourEnd: int := 17
  const ScaleUpThreshold: real := 80.0
  const ScaleDownThreshold: real := 30.0
  const InitialVms: nat := 2
  const SimulationHours: nat := 24

  /** Request volume per hour. */
  const BusinessRequests: nat := 150
  const OffHourRequests: nat := 50

  /** The one VM shape this driver uses, for the initial VMs and for every
      VM added by scaling up. */
  function WebVm(id: int, brokerId: int): Vm
  {
    Vm(id, brokerId, 1000, 2, 2048, 1000, 10000, "Xen")
  }

  predicate HasWebSpec(v: Vm, brokerId: int)
  {
    v.userId == brokerId && v.mips == 1000 && v.pes == 2 && v.ram == 2048
    && v.bw == 1000 && v.size == 10000 && v.vmm == "Xen"
  }

  /** Every VM of the list has the web shape and its id equals its index. */
  predicate WellFormedFleet(vms: seq<Vm>, brokerId: int)
  {
    IdsMatchPositions(vms) && forall k :: 0 <= k < |vms| ==> HasWebSpec(vms[k], brokerId)
  }

  // ---------------------------------------------------------------------
  // Hour classification and utilisation

  /** Business hours are 8..17, both ends included. */
  predicate IsBusinessHour(hour: int)
  {
    hour >= BusinessHourStart && hour <= BusinessHourEnd
  }

  /** The simulated utilisation: high in business hours, low otherwise.
      It is exactly what makes the scale-up test succeed in business hours
      and the utilisation half of the scale-down test succeed off-hours. */
  function Utilization(hour: int): (u: real)
    ensures u == 85.0 || u == 25.0
    ensures u > ScaleUpThreshold <==> IsBusinessHour(hour)
    ensures u < ScaleDownThreshold <==> !IsBusinessHour(hour)
  {
    if IsBusinessHour(hour) then 85.0 else 25.0
  }

  /** Requests issued in one hour; always fewer than 1000, so the ids
      hour * 1000 + i of different hours never collide. */
  function RequestsPerHour(hour: int): (n: nat)
    ensures 0 < n < 1000
    ensures IsBusinessHour(hour) ==> n == 150
    ensures !IsBusinessHour(hour) ==> n == 50
  {
    if IsBusinessHour(hour) then BusinessRequests else OffHourRequests
  }

  /** Independent closed form of the number of business hours among
      0..n-1. */
  function ExpectedBusinessHours(n: nat): nat
  {
    if n <= 8 then 0 else if n <= 18 then n - 8 else 10
  }

  /** The set of business hours among 0..n-1 has the closed-form size. */
  lemma {:induction false} BusinessHoursBefore(n: nat)
    ensures |set h: int | 0 <= h < n && IsBusinessHour(h)| == ExpectedBusinessHours(n)
  {
    if n == 0 {
      assert (set h: int | 0 <= h < n && IsBusinessHour(h)) == {};
    } else {
      BusinessHoursBefore(n - 1);
      var before := set h: int | 0 <= h < n - 1 && IsBusinessHour(h);
      if IsBusinessHour(n - 1) {
        assert (set h: int | 0 <= h < n && IsBusinessHour(h)) == before + {n - 1};
      } else {
        assert (set h: int | 0 <= h < n && IsBusinessHour(h)) == before;
      }
    }
  }

  /** Exactly ten of the simulated hours 0..23 are business hours. */
  lemma TenBusinessHoursPerDay()
    ensures |set h: int | 0 <= h < SimulationHours && IsBusinessHour(h)| == 10
  {
    BusinessHoursBefore(SimulationHours);
  }

  // ---------------------------------------------------------------------
  // Initial VMs and requests

  /** The first `n` web VMs, numbered 0..n-1. */
  function WebVms(n: nat, brokerId: int): (vms: seq<Vm>)
    ensures |vms| == n
    ensures WellFormedFleet(vms, brokerId)
  {
    if n == 0 then [] else WebVms(n - 1, brokerId) + [WebVm(n - 1, brokerId)]
  }

  /** The VMs submitted before the first hour: ids 0 and 1. */
  function CreateInitialVms(brokerId: int): (vms: seq<Vm>)
    ensures |vms| == InitialVms
    ensures WellFormedFleet(vms, brokerId)
  {
    WebVms(InitialVms, brokerId)
  }

  /** One request with the given id: 2000 MI, one PE, 300/300 file sizes. */
  function Request(brokerId: int, id: int): Cloudlet
  {
    Cloudlet(id, brokerId, 2000, 1, 300, 300)
  }

  /** The `count` requests of hour `hour`; request `i` gets id
      hour * 1000 + i. A negative count yields no request (the loop does
      not run). */
  function CreateRequests(brokerId: int, count: int, hour: int): (cs: seq<Cloudlet>)
    ensures |cs| == if count < 0 then 0 else count
    ensures forall i :: 0 <= i < |cs| ==>
      cs[i].id == hour * 1000 + i && cs[i].length == 2000 && cs[i].pes == 1
      && cs[i].userId == brokerId && cs[i].fileSize == 300 && cs[i].outputSize == 300
    ensures forall i, j :: 0 <= i < j < |cs| ==> cs[i].id < cs[j].id
    ensures forall i :: 0 <= i < |cs| ==> hour * 1000 <= cs[i].id < hour * 1000 + |cs|
  {
    if count <= 0 then []
    else
      var cs := seq(count, i => Request(brokerId, hour * 1000 + i));
      assert forall i :: 0 <= i < |cs| ==> cs[i] == Request(brokerId, hour * 1000 + i);
      cs
  }

  // ---------------------------------------------------------------------
  // The autoscaler

  /** `longer` starts with all of `shorter`. */
  predicate Extends(longer: seq<Vm>, shorter: seq<Vm>)
  {
    |shorter| <= |longer| && forall k :: 0 <= k < |shorter| ==> longer[k] == shorter[k]
  }

  /** One scaling decision. Above the scale-up threshold one web VM is
      appended whose id is the current list length; otherwise, below the
      scale-down threshold and with more VMs than the initial floor, the
      last VM is removed; otherwise nothing changes. */
  function AutoScale(vms: seq<Vm>, brokerId: int, utilization: real): (r: seq<Vm>)
    ensures utilization > ScaleUpThreshold ==>
      |r| == |vms| + 1 && Extends(r, vms)
      && r[|vms|].id == |vms| && HasWebSpec(r[|vms|], brokerId)
    ensures utilization <= ScaleUpThreshold && utilization < ScaleDownThreshold && |vms| > InitialVms ==>
      |r| == |vms| - 1 && Extends(vms, r)
    ensures utilization <= ScaleUpThreshold && !(utilization < ScaleDownThreshold && |vms| > InitialVms) ==>
      r == vms
  {
    if utilization > ScaleUpThreshold then
      vms + [WebVm(|vms|, brokerId)]
    else if utilization < ScaleDownThreshold && |vms| > InitialVms then
      vms[..|vms| - 1]
    else
      vms
  }

  /** Scaling preserves the fleet invariant: ids equal positions, every VM
      has the web shape, and the list never drops below the floor. */
  lemma AutoScalePreservesFleet(vms: seq<Vm>, brokerId: int, utilization: real)
    requires WellFormedFleet(vms, brokerId) && |vms| >= InitialVms
    ensures WellFormedFleet(AutoScale(vms, brokerId, utilization), brokerId)
    ensures |AutoScale(vms, brokerId, utilization)| >= InitialVms
  {
  }

  /** A scale-down straight after a scale-up restores the list. */
  lemma ScaleDownUndoesScaleUp(vms: seq<Vm>, brokerId: int, up: real, down: real)
    requires |vms| >= InitialVms
    requires up > ScaleUpThreshold && down < ScaleDownThreshold
    ensures AutoScale(AutoScale(vms, brokerId, up), brokerId, down) == vms
  {
    var grown := AutoScale(vms, brokerId, up);
    assert grown[..|vms|] == vms;
  }

  /** A run of scaling decisions on the given utilisations, in order. */
  function AutoScaleAll(vms: seq<Vm>, brokerId: int, utilizations: seq<real>): seq<Vm>
    decreases |utilizations|
  {
    if |utilizations| == 0 then vms
    else AutoScaleAll(AutoScale(vms, brokerId, utilizations[0]), brokerId, utilizations[1..])
  }

  /** Starting from the initial VMs, any run of scaling decisions leaves a
      well-formed fleet (VM k has id k) of at least the initial size. */
  lemma {:induction false} AnyScalingKeepsFleet(brokerId: int, utilizations: seq<real>)
    ensures WellFormedFleet(AutoScaleAll(CreateInitialVms(brokerId), brokerId, utilizations), brokerId)
    ensures |AutoScaleAll(CreateInitialVms(brokerId), brokerId, utilizations)| >= InitialVms
  {
    ScalingKeepsFleet(CreateInitialVms(brokerId), brokerId, utilizations);
  }

  lemma {:induction false} ScalingKeepsFleet(vms: seq<Vm>, brokerId: int, utilizations: seq<real>)
    requires WellFormedFleet(vms, brokerId) && |vms| >= InitialVms
    ensures WellFormedFleet(AutoScaleAll(vms, brokerId, utilizations), brokerId)
    ensures |AutoScaleAll(vms, brokerId, utilizations)| >= InitialVms
    decreases |utilizations|
  {
    if |utilizations| > 0 {
      AutoScalePreservesFleet(vms, brokerId, utilizations[0]);
      ScalingKeepsFleet(AutoScale(vms, brokerId, utilizations[0]), brokerId, utilizations[1..]);
    }
  }

  // ---------------------------------------------------------------------
  // The hour loop

  /** What the hour loop has built so far: the VM list and the requests
      to be submitted once the loop ends. */
  datatype LoopState = LoopState(vms: seq<Vm>, requests: seq<Cloudlet>)

  /** One iteration of the hour loop: create this hour's requests, then
      scale on this hour's utilisation. */
  function Hour(s: LoopState, brokerId: int, hour: int): LoopState
  {
    LoopState(
      AutoScale(s.vms, brokerId, Utilization(hour)),
      s.requests + CreateRequests(brokerId, RequestsPerHour(hour), hour))
  }

  /** The loop state after hours 0..n-1. */
  function RunHours(brokerId: int, n: nat): LoopState
  {
    if n == 0 then LoopState(CreateInitialVms(brokerId), [])
    else Hour(RunHours(brokerId, n - 1), brokerId, n - 1)
  }

  /** The state when the 24-hour loop ends. */
  function Simulate(brokerId: int): LoopState
  {
    RunHours(brokerId, SimulationHours)
  }

  /** Independent closed form of the fleet size after n hours: flat at 2
      through the early off-hours (the floor blocks scale-down), +1 per
      business hour up to 12, -1 per later off-hour back down to the floor. */
  function ExpectedVmCount(n: nat): nat
  {
    if n <= 8 then 2 else if n <= 18 then n - 6 else if n <= 28 then 30 - n else 2
  }

  /** Independent closed form of the number of requests after n hours. */
  function ExpectedRequestCount(n: nat): nat
  {
    if n <= 8 then 50 * n else if n <= 18 then 400 + 150 * (n - 8) else 1900 + 50 * (n - 18)
  }

  /** The VM list after the scaling decisions of hours 0..n-1. */
  function VmsAfter(brokerId: int, n: nat): seq<Vm>
  {
    if n == 0 then CreateInitialVms(brokerId)
    else AutoScale(VmsAfter(brokerId, n - 1), brokerId, Utilization(n - 1))
  }

  /** The size effect of one scaling decision. */
  lemma AutoScaleSize(vms: seq<Vm>, brokerId: int, utilization: real)
    ensures utilization > ScaleUpThreshold ==> |AutoScale(vms, brokerId, utilization)| == |vms| + 1
    ensures utilization < ScaleDownThreshold && |vms| > InitialVms ==>
      |AutoScale(vms, brokerId, utilization)| == |vms| - 1
    ensures utilization < ScaleDownThreshold && |vms| <= InitialVms ==>
      |AutoScale(vms, brokerId, utilization)| == |vms|
  {
  }

  /** The utilisations of hours 0..n-1, in order. */
  function HourlyUtilizations(n: nat): seq<real>
  {
    seq(n, h => Utilization(h))
  }

  /** Running one more decision at the end of a run scales its result. */
  lemma {:induction false} AutoScaleAllSnoc(vms: seq<Vm>, brokerId: int, utilizations: seq<real>, u: real)
    ensures AutoScaleAll(vms, brokerId, utilizations + [u])
      == AutoScale(AutoScaleAll(vms, brokerId, utilizations), brokerId, u)
    decreases |utilizations|
  {
    var all := utilizations + [u];
    if |utilizations| == 0 {
      assert all == [u];
      assert all[1..] == [];
    } else {
      assert all[0] == utilizations[0];
      assert all[1..] == utilizations[1..] + [u];
      AutoScaleAllSnoc(AutoScale(vms, brokerId, utilizations[0]), brokerId, utilizations[1..], u);
    }
  }

  /** The hour-driven VM list is the general scaling run fed the hourly
      utilisations. */
  lemma {:induction false} VmsAfterIsScalingRun(brokerId: int, n: nat)
    ensures VmsAfter(brokerId, n) == AutoScaleAll(CreateInitialVms(brokerId), brokerId, HourlyUtilizations(n))
  {
    if n > 0 {
      VmsAfterIsScalingRun(brokerId, n - 1);
      assert HourlyUtilizations(n) == HourlyUtilizations(n - 1) + [Utilization(n - 1)];
      AutoScaleAllSnoc(CreateInitialVms(brokerId), brokerId, HourlyUtilizations(n - 1), Utilization(n - 1));
    }
  }

  /** After any number of hours the fleet is well formed and at least at
      the floor. */
  lemma {:induction false} FleetAfter(brokerId: int, n: nat)
    ensures WellFormedFleet(VmsAfter(brokerId, n), brokerId)
    ensures |VmsAfter(brokerId, n)| >= InitialVms
  {
    VmsAfterIsScalingRun(brokerId, n);
    AnyScalingKeepsFleet(brokerId, HourlyUtilizations(n));
  }

  /** After any number of hours the fleet size follows the closed form. */
  lemma {:induction false} FleetSizeAfter(brokerId: int, n: nat)
    ensures |VmsAfter(brokerId, n)| == ExpectedVmCount(n)
  {
    if n > 0 {
      var prev := VmsAfter(brokerId, n - 1);
      FleetSizeAfter(brokerId, n - 1);
      AutoScaleSize(prev, brokerId, Utilization(n - 1));
    }
  }

  // ---------------------------------------------------------------------
  // Request ids: ordering along a list of cloudlets

  /** Ids strictly increase along the list and all lie below `bound`,
      stated from the back: the last id is below `bound` and everything
      before it lies below the last id. */
  predicate IdsIncreasingBelow(cs: seq<Cloudlet>, bound: int)
    decreases |cs|
  {
    |cs| == 0 || (cs[|cs| - 1].id < bound && IdsIncreasingBelow(cs[..|cs| - 1], cs[|cs| - 1].id))
  }

  /** Every id is at least `low`. */
  predicate IdsAtLeast(cs: seq<Cloudlet>, low: int)
  {
    forall k :: 0 <= k < |cs| ==> low <= cs[k].id
  }

  /** Pairwise distinct cloudlet ids. */
  predicate IdsDistinct(cs: seq<Cloudlet>)
  {
    forall i, j :: 0 <= i < |cs| && 0 <= j < |cs| && i != j ==> cs[i].id != cs[j].id
  }

  /** The back-to-front definition means what it says: ids increase
      pairwise and all lie below the bound. */
  lemma {:induction false} IncreasingBelowIsSorted(cs: seq<Cloudlet>, bound: int)
    requires IdsIncreasingBelow(cs, bound)
    ensures forall i, j :: 0 <= i < j < |cs| ==> cs[i].id < cs[j].id
    ensures forall k :: 0 <= k < |cs| ==> cs[k].id < bound
    decreases |cs|
  {
    if |cs| > 0 {
      var init := cs[..|cs| - 1];
      IncreasingBelowIsSorted(init, cs[|cs| - 1].id);
      forall i, j | 0 <= i < j < |cs|
        ensures cs[i].id < cs[j].id
      {
        assert cs[i] == init[i];
        if j < |cs| - 1 {
          assert cs[j] == init[j];
        }
      }
      forall k | 0 <= k < |cs|
        ensures cs[k].id < bound
      {
        if k < |cs| - 1 {
          assert cs[k] == init[k];
        }
      }
    }
  }

  /** Increasing ids are pairwise distinct. */
  lemma IncreasingIdsAreDistinct(cs: seq<Cloudlet>, bound: int)
    requires IdsIncreasingBelow(cs, bound)
    ensures IdsDistinct(cs)
  {
    IncreasingBelowIsSorted(cs, bound);
    forall i, j | 0 <= i < |cs| && 0 <= j < |cs| && i != j
      ensures cs[i].id != cs[j].id
    {
      if i < j {
        assert cs[i].id < cs[j].id;
      } else {
        assert cs[j].id < cs[i].id;
      }
    }
  }

  /** A bound can always be raised. */
  lemma RaiseBound(cs: seq<Cloudlet>, low: int, high: int)
    requires IdsIncreasingBelow(cs, low) && low <= high
    ensures IdsIncreasingBelow(cs, high)
  {
  }

  /** Appending a block of increasing ids, all at least `mid`, to a block of
      increasing ids below `mid` gives an increasing list. */
  lemma {:induction false} AppendIncreasing(a: seq<Cloudlet>, b: seq<Cloudlet>, mid: int, bound: int)
    requires IdsIncreasingBelow(a, mid) && IdsAtLeast(b, mid)
    requires IdsIncreasingBelow(b, bound) && mid <= bound
    ensures IdsIncreasingBelow(a + b, bound)
    decreases |b|
  {
    if |b| == 0 {
      assert a + b == a;
      RaiseBound(a, mid, bound);
    } else {
      var init := b[..|b| - 1];
      assert (a + b)[..|a + b| - 1] == a + init;
      assert (a + b)[|a + b| - 1] == b[|b| - 1];
      assert IdsAtLeast(init, mid) by {
        forall k | 0 <= k < |init| ensures mid <= init[k].id {
          assert init[k] == b[k];
        }
      }
      AppendIncreasing(a, init, mid, b[|b| - 1].id);
    }
  }

  /** Appending a block of increasing ids in [low, low + |added|) to a list
      of increasing ids below `low` keeps ids increasing below any bound
      the block stays under. */
  lemma AppendBlock(before: seq<Cloudlet>, added: seq<Cloudlet>, low: int, high: int)
    requires IdsIncreasingBelow(before, low) && IdsAtLeast(added, low)
    requires IdsIncreasingBelow(added, low + |added|) && low + |added| <= high
    ensures IdsIncreasingBelow(before + added, high)
  {
    RaiseBound(added, low + |added|, high);
    AppendIncreasing(before, added, low, high);
  }

  /** The requests of one hour have increasing ids from hour * 1000 up. */
  lemma {:induction false} RequestBlockIncreasing(brokerId: int, count: int, hour: int)
    ensures IdsIncreasingBelow(CreateRequests(brokerId, count, hour), hour * 1000 + |CreateRequests(brokerId, count, hour)|)
    ensures IdsAtLeast(CreateRequests(brokerId, count, hour), hour * 1000)
    decreases count
  {
    var cs := CreateRequests(brokerId, count, hour);
    if count > 0 {
      RequestBlockIncreasing(brokerId, count - 1, hour);
      assert cs[..|cs| - 1] == CreateRequests(brokerId, count - 1, hour);
    }
  }

  /** The requests created by hours 0..n-1, in loop order. */
  function RequestsUpTo(brokerId: int, n: nat): seq<Cloudlet>
  {
    if n == 0 then []
    else RequestsUpTo(brokerId, n - 1) + CreateRequests(brokerId, RequestsPerHour(n - 1), n - 1)
  }

  /** The VM list of the hour loop depends only on the scaling decisions. */
  lemma {:induction false} RunHoursVms(brokerId: int, n: nat)
    ensures RunHours(brokerId, n).vms == VmsAfter(brokerId, n)
  {
    if n > 0 {
      RunHoursVms(brokerId, n - 1);
      assert RunHours(brokerId, n).vms == AutoScale(RunHours(brokerId, n - 1).vms, brokerId, Utilization(n - 1));
    }
  }

  /** The requests of the hour loop depend only on the per-hour request
      generation. */
  lemma {:induction false} RunHoursRequests(brokerId: int, n: nat)
    ensures RunHours(brokerId, n).requests == RequestsUpTo(brokerId, n)
  {
    if n > 0 {
      RunHoursRequests(brokerId, n - 1);
      assert RunHours(brokerId, n).requests
        == RunHours(brokerId, n - 1).requests + CreateRequests(brokerId, RequestsPerHour(n - 1), n - 1);
    }
  }

  /** The hour loop splits into two independent folds. */
  lemma RunHoursSplit(brokerId: int, n: nat)
    ensures RunHours(brokerId, n) == LoopState(VmsAfter(brokerId, n), RequestsUpTo(brokerId, n))
  {
    RunHoursVms(brokerId, n);
    RunHoursRequests(brokerId, n);
  }

  /** The requests of hours 0..n-1 number as the closed form says. */
  lemma {:induction false} RequestCount(brokerId: int, n: nat)
    ensures |RequestsUpTo(brokerId, n)| == ExpectedRequestCount(n)
  {
    if n > 0 {
      RequestCount(brokerId, n - 1);
    }
  }

  /** Request ids of hours 0..n-1 strictly increase (hence are pairwise
      distinct) and stay below n * 1000, because no hour issues 1000 or more
      requests. */
  lemma {:induction false} RequestIds(brokerId: int, n: nat)
    ensures IdsIncreasingBelow(RequestsUpTo(brokerId, n), n * 1000)
  {
    if n > 0 {
      var before := RequestsUpTo(brokerId, n - 1);
      var added := CreateRequests(brokerId, RequestsPerHour(n - 1), n - 1);
      RequestIds(brokerId, n - 1);
      RequestBlockIncreasing(brokerId, RequestsPerHour(n - 1), n - 1);
      AppendBlock(before, added, (n - 1) * 1000, n * 1000);
    }
  }

  /** Every request is 2000 MI long, needs one PE and belongs to the
      broker. */
  predicate WebRequest(c: Cloudlet, brokerId: int)
  {
    c.length == 2000 && c.pes == 1 && c.userId == brokerId
  }

  /** Every request of hours 0..n-1 is a web request. */
  lemma {:induction false} RequestShape(brokerId: int, n: nat)
    ensures forall k :: 0 <= k < |RequestsUpTo(brokerId, n)| ==>
      WebRequest(RequestsUpTo(brokerId, n)[k], brokerId)
  {
    if n > 0 {
      RequestShape(brokerId, n - 1);
      var before := RequestsUpTo(brokerId, n - 1);
      var added := CreateRequests(brokerId, RequestsPerHour(n - 1), n - 1);
      var all := before + added;
      forall k | 0 <= k < |all| ensures WebRequest(all[k], brokerId) {
        if k < |before| {
          assert all[k] == before[k];
        } else {
          assert all[k] == added[k - |before|];
        }
      }
    }
  }

  /** The day as the driver runs it: hours 0..7 keep 2 VMs, hours 8..17
      grow the list to 12, hours 18..23 shrink it to 6, so the reported
      "Total VMs created" is 6 (the final list size, not the 12 VMs ever
      created). 2200 requests are generated, with pairwise distinct ids. */
  lemma DaySummary(brokerId: int)
    ensures |RunHours(brokerId, 8).vms| == 2
    ensures |RunHours(brokerId, 18).vms| == 12
    ensures |Simulate(brokerId).vms| == 6
    ensures WellFormedFleet(Simulate(brokerId).vms, brokerId)
    ensures |Simulate(brokerId).requests| == 2200
    ensures IdsDistinct(Simulate(brokerId).requests)
    ensures forall k :: 0 <= k < |Simulate(brokerId).requests| ==>
      WebRequest(Simulate(brokerId).requests[k], brokerId)
  {
    RunHoursSplit(brokerId, 8);
    RunHoursSplit(brokerId, 18);
    RunHoursSplit(brokerId, SimulationHours);
    RequestShape(brokerId, SimulationHours);
    FleetSizeAfter(brokerId, 8);
    FleetSizeAfter(brokerId, 18);
    FleetSizeAfter(brokerId, SimulationHours);
    FleetAfter(brokerId, SimulationHours);
    RequestCount(brokerId, SimulationHours);
    RequestIds(brokerId, SimulationHours);
    IncreasingIdsAreDistinct(Simulate(brokerId).requests, SimulationHours * 1000);
  }
}
