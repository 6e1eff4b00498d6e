/** The cost-optimisation driver: a three-entry VM-type catalogue, three
    fixed allocation strategies, a mixed-length workload, and the cost and
    completion-time arithmetic applied to the cloudlets the toolkit reports
    as finished.

    Prices, finish times and CPU times are exact `real`s standing in for
    Java doubles (no rounding is modelled). Finish and CPU times are
    computed by the toolkit and enter the model as inputs. */
module CostOptimization {
  import opened Wrappers
  import opened Entities

  /** A catalogue entry: name, MIPS per VM, PEs, RAM (MB), price per hour. */
  datatype VmType = VmType(name: string, mips: int, pes: int, ram: int, hourlyCost: real)

  const Small: VmType := VmType("Small", 500, 1, 512, 0.05)
  const Medium: VmType := VmType("Medium", 1000, 2, 1024, 0.10)
  const Large: VmType := VmType("Large", 2000, 4, 2048, 0.20)

  /** The catalogue, in lookup order. */
  const VmTypes: seq<VmType> := [Small, Medium, Large]

  /** Bandwidth and image size shared by every VM of this driver. */
  const VmBw: int := 1000
  const VmImageSize: int := 10000

  /** Seconds per billed hour. */
  const SecondsPerHour: real := 3600.0

  // ---------------------------------------------------------------------
  // VM creation and type lookup

  /** A VM of catalogue type `t` with the given id. */
  function CreateVm(brokerId: int, id: int, t: VmType): (v: Vm)
    ensures v.id == id && v.userId == brokerId
    ensures v.mips == t.mips && v.pes == t.pes && v.ram == t.ram
    ensures v.bw == VmBw && v.size == VmImageSize && v.vmm == "Xen"
    ensures t in VmTypes ==> FindType(v) == Some(t)
  {
    var v := Vm(id, brokerId, t.mips, t.pes, t.ram, VmBw, VmImageSize, "Xen");
    assert t in VmTypes ==> FindType(v) == Some(t) by {
      if t in VmTypes {
        CatalogueKeysDistinct();
        var i :| 0 <= i < |VmTypes| && VmTypes[i] == t;
        FindTypeUnique(VmTypes, v, i);
      }
    }
    v
  }

  /** The cost code recognises a VM's type by its (MIPS, RAM) pair only. */
  predicate Matches(v: Vm, t: VmType)
  {
    v.mips == t.mips && v.ram == t.ram
  }

  /** No two catalogue entries share a (MIPS, RAM) pair. */
  predicate KeysDistinct(catalogue: seq<VmType>)
  {
    forall i, j :: 0 <= i < j < |catalogue| ==>
      catalogue[i].mips != catalogue[j].mips || catalogue[i].ram != catalogue[j].ram
  }

  /** Entry `i` is the first one of the catalogue that `v` matches. */
  predicate FirstMatchAt(catalogue: seq<VmType>, v: Vm, i: int)
  {
    0 <= i < |catalogue| && Matches(v, catalogue[i])
    && forall j :: 0 <= j < i ==> !Matches(v, catalogue[j])
  }

  /** The first catalogue entry `v` matches, if any (the scan stops at the
      first hit). */
  function FindTypeIn(catalogue: seq<VmType>, v: Vm): (r: Option<VmType>)
    ensures r.None? <==> forall k :: 0 <= k < |catalogue| ==> !Matches(v, catalogue[k])
    ensures r.Some? ==> exists i :: FirstMatchAt(catalogue, v, i) && catalogue[i] == r.value
  {
    if |catalogue| == 0 then None
    else if Matches(v, catalogue[0]) then
      assert FirstMatchAt(catalogue, v, 0);
      Some(catalogue[0])
    else
      var rest := FindTypeIn(catalogue[1..], v);
      if rest.Some? then
        var i :| FirstMatchAt(catalogue[1..], v, i) && catalogue[1..][i] == rest.value;
        assert FirstMatchAt(catalogue, v, i + 1);
        rest
      else
        assert forall k :: 1 <= k < |catalogue| ==> catalogue[k] == catalogue[1..][k - 1];
        rest
  }

  /** The type of `v` according to the driver's catalogue. */
  function FindType(v: Vm): (r: Option<VmType>)
    ensures r.Some? ==> r.value in VmTypes && Matches(v, r.value)
    ensures r.None? <==> forall k :: 0 <= k < |VmTypes| ==> !Matches(v, VmTypes[k])
  {
    FindTypeIn(VmTypes, v)
  }

  /** The catalogue's (MIPS, RAM) pairs are pairwise distinct, so the
      first-match lookup is unambiguous. */
  lemma CatalogueKeysDistinct()
    ensures KeysDistinct(VmTypes)
  {
  }

  /** With distinct keys, a VM matching entry `i` is looked up as entry `i`. */
  lemma FindTypeUnique(catalogue: seq<VmType>, v: Vm, i: int)
    requires KeysDistinct(catalogue)
    requires 0 <= i < |catalogue| && Matches(v, catalogue[i])
    ensures FindTypeIn(catalogue, v) == Some(catalogue[i])
  {
    var r := FindTypeIn(catalogue, v);
    var j :| FirstMatchAt(catalogue, v, j) && catalogue[j] == r.value;
  }

  /** Round trip: a VM built from a catalogue type is looked up as that
      type. */
  lemma CreatedVmHasItsType(brokerId: int, id: int, t: VmType)
    requires t in VmTypes
    ensures FindType(CreateVm(brokerId, id, t)) == Some(t)
  {
    CatalogueKeysDistinct();
    var i :| 0 <= i < |VmTypes| && VmTypes[i] == t;
    FindTypeUnique(VmTypes, CreateVm(brokerId, id, t), i);
  }

  // ---------------------------------------------------------------------
  // Allocation strategies

  /** The three allocation strategies of the driver. */
  datatype Strategy = CheapestFirst | PerformanceFirst | Balanced

  /** How many VMs each strategy allocates. */
  function FleetSize(s: Strategy): nat
  {
    match s
    case CheapestFirst => 10
    case PerformanceFirst => 3
    case Balanced => 5
  }

  /** The type a strategy gives to VM number `i`. */
  function TypeAt(s: Strategy, i: int): VmType
  {
    match s
    case CheapestFirst => Small
    case PerformanceFirst => Large
    case Balanced => if i % 2 == 0 then Medium else Small
  }

  /** The first `n` VMs of strategy `s`, numbered 0..n-1. */
  function Fleet(s: Strategy, brokerId: int, n: nat): (vms: seq<Vm>)
    ensures |vms| == n
    ensures forall i :: 0 <= i < n ==> vms[i] == CreateVm(brokerId, i, TypeAt(s, i))
  {
    if n == 0 then [] else Fleet(s, brokerId, n - 1) + [CreateVm(brokerId, n - 1, TypeAt(s, n - 1))]
  }

  /** Ten Small VMs, ids 0..9. */
  function CheapestFirstVms(brokerId: int): (vms: seq<Vm>)
    ensures |vms| == 10 && IdsMatchPositions(vms)
    ensures forall i :: 0 <= i < |vms| ==>
      vms[i].mips == 500 && vms[i].pes == 1 && vms[i].ram == 512 && FindType(vms[i]) == Some(Small)
    ensures forall i :: 0 <= i < |vms| ==> vms[i] == CreateVm(brokerId, i, Small)
  {
    var vms := Fleet(CheapestFirst, brokerId, 10);
    forall i | 0 <= i < |vms| ensures FindType(vms[i]) == Some(Small) {
      CreatedVmHasItsType(brokerId, i, Small);
    }
    vms
  }

  /** Three Large VMs, ids 0..2. */
  function PerformanceFirstVms(brokerId: int): (vms: seq<Vm>)
    ensures |vms| == 3 && IdsMatchPositions(vms)
    ensures forall i :: 0 <= i < |vms| ==>
      vms[i].mips == 2000 && vms[i].pes == 4 && vms[i].ram == 2048 && FindType(vms[i]) == Some(Large)
    ensures forall i :: 0 <= i < |vms| ==> vms[i] == CreateVm(brokerId, i, Large)
  {
    var vms := Fleet(PerformanceFirst, brokerId, 3);
    forall i | 0 <= i < |vms| ensures FindType(vms[i]) == Some(Large) {
      CreatedVmHasItsType(brokerId, i, Large);
    }
    vms
  }

  /** Five VMs, ids 0..4: Medium at even positions, Small at odd ones. */
  function BalancedVms(brokerId: int): (vms: seq<Vm>)
    ensures |vms| == 5 && IdsMatchPositions(vms)
    ensures forall i :: 0 <= i < |vms| && i % 2 == 0 ==> FindType(vms[i]) == Some(Medium)
    ensures forall i :: 0 <= i < |vms| && i % 2 == 1 ==> FindType(vms[i]) == Some(Small)
    ensures forall i :: 0 <= i < |vms| ==> vms[i] == CreateVm(brokerId, i, if i % 2 == 0 then Medium else Small)
  {
    var vms := Fleet(Balanced, brokerId, 5);
    forall i | 0 <= i < |vms| ensures FindType(vms[i]) == Some(TypeAt(Balanced, i)) {
      CreatedVmHasItsType(brokerId, i, TypeAt(Balanced, i));
    }
    vms
  }

  /** Strategy dispatch. */
  function AllocateVms(s: Strategy, brokerId: int): (vms: seq<Vm>)
    ensures |vms| == FleetSize(s) && IdsMatchPositions(vms)
    ensures forall i :: 0 <= i < |vms| ==> FindType(vms[i]) == Some(TypeAt(s, i))
    ensures vms == Fleet(s, brokerId, FleetSize(s))
  {
    match s
    case CheapestFirst => CheapestFirstVms(brokerId)
    case PerformanceFirst => PerformanceFirstVms(brokerId)
    case Balanced => BalancedVms(brokerId)
  }

  /** Number of VMs of the list whose looked-up type is `t`. */
  function CountOfType(vms: seq<Vm>, t: VmType): nat
  {
    if |vms| == 0 then 0
    else CountOfType(vms[..|vms| - 1], t) + (if FindType(vms[|vms| - 1]) == Some(t) then 1 else 0)
  }

  /** The first n balanced VMs hold ceil(n/2) Medium and floor(n/2) Small
      VMs. */
  lemma {:induction false} BalancedFleetCounts(brokerId: int, n: nat)
    ensures CountOfType(Fleet(Balanced, brokerId, n), Medium) == (n + 1) / 2
    ensures CountOfType(Fleet(Balanced, brokerId, n), Small) == n / 2
  {
    if n > 0 {
      var vms := Fleet(Balanced, brokerId, n);
      var prev := Fleet(Balanced, brokerId, n - 1);
      assert vms[..n - 1] == prev;
      BalancedFleetCounts(brokerId, n - 1);
      var t := TypeAt(Balanced, n - 1);
      CreatedVmHasItsType(brokerId, n - 1, t);
      assert FindType(vms[n - 1]) == Some(t);
      if (n - 1) % 2 == 0 {
        assert t == Medium;
        assert CountOfType(vms, Medium) == CountOfType(prev, Medium) + 1;
        assert CountOfType(vms, Small) == CountOfType(prev, Small);
      } else {
        assert t == Small;
        assert CountOfType(vms, Medium) == CountOfType(prev, Medium);
        assert CountOfType(vms, Small) == CountOfType(prev, Small) + 1;
      }
    }
  }

  /** The balanced strategy allocates three Medium and two Small VMs. */
  lemma BalancedMix(brokerId: int)
    ensures CountOfType(BalancedVms(brokerId), Medium) == 3
    ensures CountOfType(BalancedVms(brokerId), Small) == 2
  {
    BalancedFleetCounts(brokerId, 5);
  }

  // ---------------------------------------------------------------------
  // Workload

  /** `count` cloudlets; cloudlet i has id i, one PE and a length that
      cycles through 1000, 3000, 5000 MI. A negative count yields none. */
  function CreateWorkloads(brokerId: int, count: int): (cs: seq<Cloudlet>)
    ensures |cs| == if count < 0 then 0 else count
    ensures forall i :: 0 <= i < |cs| ==>
      cs[i].id == i && cs[i].pes == 1 && cs[i].userId == brokerId
      && cs[i].fileSize == 300 && cs[i].outputSize == 300
      && cs[i].length == 1000 + (i % 3) * 2000
    ensures forall i :: 0 <= i < |cs| ==> cs[i].length in {1000, 3000, 5000}
    ensures forall i :: 0 <= i && i + 3 < |cs| ==> cs[i + 3].length == cs[i].length
    decreases count
  {
    if count <= 0 then []
    else
      var i := count - 1;
      CreateWorkloads(brokerId, count - 1) + [Cloudlet(i, brokerId, 1000 + (i % 3) * 2000, 1, 300, 300)]
  }

  // ---------------------------------------------------------------------
  // Cost

  /** All reported finish times are non-negative. */
  predicate FinishTimesNonNegative(cs: seq<FinishedCloudlet>)
  {
    forall k :: 0 <= k < |cs| ==> cs[k].finishTime >= 0.0
  }

  /** Some finished cloudlet ran on VM `vmId`. */
  predicate RanOn(cs: seq<FinishedCloudlet>, vmId: int)
  {
    exists k :: 0 <= k < |cs| && cs[k].vmId == vmId
  }

  /** The largest finish time among the cloudlets that ran on `vmId`,
      or nothing when none did. */
  function MaxFinishOn(cs: seq<FinishedCloudlet>, vmId: int): (m: Option<real>)
    ensures m.None? <==> !RanOn(cs, vmId)
    ensures m.Some? ==> exists k :: 0 <= k < |cs| && cs[k].vmId == vmId && cs[k].finishTime == m.value
    ensures m.Some? ==> forall k :: 0 <= k < |cs| && cs[k].vmId == vmId ==> cs[k].finishTime <= m.value
  {
    if |cs| == 0 then None
    else
      var rest := MaxFinishOn(cs[..|cs| - 1], vmId);
      var last := cs[|cs| - 1];
      assert forall k :: 0 <= k < |cs| - 1 ==> cs[..|cs| - 1][k] == cs[k];
      if last.vmId != vmId then rest
      else if rest.None? || rest.value < last.finishTime then Some(last.finishTime)
      else rest
  }

  /** The maximum finish time on `vmId`, defaulting to 0 when no cloudlet
      ran there. */
  function MaxFinishTime(cs: seq<FinishedCloudlet>, vmId: int): (t: real)
    ensures !RanOn(cs, vmId) ==> t == 0.0
    ensures RanOn(cs, vmId) ==> exists k :: 0 <= k < |cs| && cs[k].vmId == vmId && cs[k].finishTime == t
    ensures forall k :: 0 <= k < |cs| && cs[k].vmId == vmId ==> cs[k].finishTime <= t
    ensures FinishTimesNonNegative(cs) ==> t >= 0.0
  {
    MaxFinishOn(cs, vmId).GetOr(0.0)
  }

  /** What one VM adds to the bill: its type's hourly price times the hours
      up to its last finish; nothing if its type is not in the catalogue. */
  function VmCost(v: Vm, cs: seq<FinishedCloudlet>): (c: real)
    ensures FindType(v).None? ==> c == 0.0
    ensures !RanOn(cs, v.id) ==> c == 0.0
    ensures FindType(v).Some? ==> c == FindType(v).value.hourlyCost * (MaxFinishTime(cs, v.id) / SecondsPerHour)
    ensures FinishTimesNonNegative(cs) ==> c >= 0.0
  {
    match FindType(v)
    case None => 0.0
    case Some(t) => t.hourlyCost * (MaxFinishTime(cs, v.id) / SecondsPerHour)
  }

  /** The bill for a VM list, summed in list order. */
  function TotalCost(vms: seq<Vm>, cs: seq<FinishedCloudlet>): (total: real)
    ensures FinishTimesNonNegative(cs) ==> total >= 0.0
    ensures |vms| == 0 ==> total == 0.0
  {
    if |vms| == 0 then 0.0
    else TotalCost(vms[..|vms| - 1], cs) + VmCost(vms[|vms| - 1], cs)
  }

  /** The bill is additive over concatenated VM lists; in particular a VM
      that is idle or of unknown type adds nothing. */
  lemma {:induction false} TotalCostAppend(a: seq<Vm>, b: seq<Vm>, cs: seq<FinishedCloudlet>)
    ensures TotalCost(a + b, cs) == TotalCost(a, cs) + TotalCost(b, cs)
    decreases |b|
  {
    if |b| > 0 {
      var b' := b[..|b| - 1];
      assert (a + b)[..|a + b| - 1] == a + b';
      TotalCostAppend(a, b', cs);
    } else {
      assert a + b == a;
    }
  }

  /** x added to itself n times. */
  function Repeat(n: nat, x: real): real
  {
    if n == 0 then 0.0 else Repeat(n - 1, x) + x
  }

  lemma {:induction false} RepeatIsProduct(n: nat, x: real)
    ensures Repeat(n, x) == (n as real) * x
  {
    if n > 0 {
      RepeatIsProduct(n - 1, x);
    }
  }

  /** A list of VMs that each add the same amount to the bill costs that
      amount times the list length. */
  lemma {:induction false} EqualBillsSum(vms: seq<Vm>, cs: seq<FinishedCloudlet>, perVm: real)
    requires forall i :: 0 <= i < |vms| ==> VmCost(vms[i], cs) == perVm
    ensures TotalCost(vms, cs) == Repeat(|vms|, perVm)
  {
    if |vms| > 0 {
      var init := vms[..|vms| - 1];
      assert forall i :: 0 <= i < |init| ==> init[i] == vms[i];
      EqualBillsSum(init, cs, perVm);
    }
  }

  /** VMs of one catalogue type t, each last finishing at time T, cost
      price(t) * T / 3600 each, summed over the list. */
  lemma UniformFleetCost(vms: seq<Vm>, cs: seq<FinishedCloudlet>, t: VmType, T: real)
    requires forall i :: 0 <= i < |vms| ==> FindType(vms[i]) == Some(t)
    requires forall i :: 0 <= i < |vms| ==> MaxFinishTime(cs, vms[i].id) == T
    ensures TotalCost(vms, cs) == Repeat(|vms|, t.hourlyCost * (T / SecondsPerHour))
  {
    var x := t.hourlyCost * (T / SecondsPerHour);
    forall i | 0 <= i < |vms| ensures VmCost(vms[i], cs) == x {
      assert FindType(vms[i]) == Some(t);
    }
    EqualBillsSum(vms, cs, x);
  }

  /** A VM built from catalogue type t is billed at t's price. */
  lemma CatalogueVmCost(brokerId: int, id: int, t: VmType, cs: seq<FinishedCloudlet>)
    requires t in VmTypes
    ensures VmCost(CreateVm(brokerId, id, t), cs) == t.hourlyCost * (MaxFinishTime(cs, id) / SecondsPerHour)
  {
    CreatedVmHasItsType(brokerId, id, t);
  }

  /** Ten Small VMs each last finishing at 3600 s cost 10 * 0.05 * 1 = 0.50. */
  lemma CheapestFirstHourCost(brokerId: int, cs: seq<FinishedCloudlet>)
    requires forall i :: 0 <= i < 10 ==> MaxFinishTime(cs, i) == 3600.0
    ensures TotalCost(CheapestFirstVms(brokerId), cs) == 0.5
  {
    UniformFleetCost(CheapestFirstVms(brokerId), cs, Small, 3600.0);
    RepeatIsProduct(10, 0.05);
  }

  // ---------------------------------------------------------------------
  // Completion time

  function SumCpuTime(cs: seq<FinishedCloudlet>): real
  {
    if |cs| == 0 then 0.0 else SumCpuTime(cs[..|cs| - 1]) + cs[|cs| - 1].actualCpuTime
  }

  /** Every CPU time lies in [lo, hi]. */
  predicate CpuTimesWithin(cs: seq<FinishedCloudlet>, lo: real, hi: real)
  {
    forall k :: 0 <= k < |cs| ==> lo <= cs[k].actualCpuTime <= hi
  }

  /** The sum of n values within [lo, hi] lies within [n * lo, n * hi],
      written as repeated sums. */
  lemma {:induction false} SumCpuTimeBounds(cs: seq<FinishedCloudlet>, lo: real, hi: real)
    requires CpuTimesWithin(cs, lo, hi)
    ensures Repeat(|cs|, lo) <= SumCpuTime(cs) <= Repeat(|cs|, hi)
  {
    if |cs| > 0 {
      var init := cs[..|cs| - 1];
      assert CpuTimesWithin(init, lo, hi) by {
        forall k | 0 <= k < |init| ensures lo <= init[k].actualCpuTime <= hi {
          assert init[k] == cs[k];
        }
      }
      SumCpuTimeBounds(init, lo, hi);
    }
  }

  /** A sum between n * lo and n * hi has its mean between lo and hi. */
  lemma MeanBetween(sum: real, n: nat, lo: real, hi: real)
    requires n > 0
    requires (n as real) * lo <= sum <= (n as real) * hi
    ensures lo <= sum / (n as real) <= hi
  {
  }

  /** Multiplying a mean by the count gives back the sum. */
  lemma MeanTimesCount(sum: real, n: nat)
    requires n > 0
    ensures (sum / (n as real)) * (n as real) == sum
  {
  }

  /** The mean CPU time of the finished cloudlets, 0 when there are none.
      The mean lies between the smallest and the largest CPU time. */
  function AvgCompletionTime(cs: seq<FinishedCloudlet>): (avg: real)
    ensures |cs| == 0 ==> avg == 0.0
    ensures |cs| > 0 ==> avg * (|cs| as real) == SumCpuTime(cs)
    ensures forall lo, hi :: CpuTimesWithin(cs, lo, hi) && |cs| > 0 ==> lo <= avg <= hi
  {
    if |cs| == 0 then 0.0
    else
      var avg := SumCpuTime(cs) / (|cs| as real);
      MeanTimesCount(SumCpuTime(cs), |cs|);
      assert forall lo, hi :: CpuTimesWithin(cs, lo, hi) ==> lo <= avg <= hi by {
        forall lo, hi | CpuTimesWithin(cs, lo, hi) ensures lo <= avg <= hi {
          SumCpuTimeBounds(cs, lo, hi);
          RepeatIsProduct(|cs|, lo);
          RepeatIsProduct(|cs|, hi);
          MeanBetween(SumCpuTime(cs), |cs|, lo, hi);
        }
      }
      avg
  }
}
