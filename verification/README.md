# Cloud simulation drivers: autoscaling and cost-aware allocation

This project models the decision logic of two drivers that sit on top of a
cloud-datacenter simulation toolkit:

- **The web-application driver** (`WebAppScaling`, `webapp.dfy`). It runs a
  24-hour traffic pattern. Hours 8 to 17, both included, are business
  hours. Each hour gets a fixed utilisation: 85 % in business hours, 25 %
  otherwise. Each hour creates 150 or 50 requests, with ids
  `hour * 1000 + i`. A two-threshold autoscaler then acts on the VM list:
  - above 80 % it appends one VM whose id is the current list length;
  - otherwise, below 30 % and with more than the initial 2 VMs, it removes
    the last VM.

  All of these decisions are made before the toolkit's simulation starts.
  They depend only on the hour index, so the hour loop is a fold over hours
  0..23 (`RunHours`, `Simulate`).
- **The cost-optimisation driver** (`CostOptimization`, `costopt.dfy`). It
  has a three-entry VM-type catalogue: Small, Medium and Large. It has three
  fixed allocation strategies: cheapest-first, performance-first and
  balanced. It builds a workload whose cloudlet lengths cycle through 1000,
  3000 and 5000 MI. On the cloudlets the toolkit reports as finished, it
  computes:
  - the total cost: each VM's type is looked up by its (MIPS, RAM) pair, and
    the VM is billed its hourly price times (its last finish time / 3600);
  - the mean CPU time, which is 0 when no cloudlet finished.

`entities.dfy` holds the toolkit records that both drivers use: `Vm`,
`Cloudlet`, and `FinishedCloudlet`. A `FinishedCloudlet` carries the VM id,
finish time and CPU time that the toolkit computes; the model takes them as
inputs. `wrappers.dfy` holds an `Option` type.

Prices, times and utilisation are Dafny `real`s. This is an
exact-arithmetic idealisation of the Java `double` code: no rounding is
modelled. Integer quantities are unbounded `int`s. No value in these drivers
comes close to Java's 32-bit limits.

The toolkit's discrete-event kernel, host capacity accounting and
time-shared scheduling are not part of these drivers and are not modelled.
Utilisation is hard-coded per hour class. The cost is summed over the
strategy's VM list. Scale-down removes the last list element.

## Model

| member | source | states |
|---|---|---|
| WebAppScaling.Utilization | src/cloudsim/CostOptimizationSimulation.java:132-139 | utilisation is 85 or 25, and it exceeds the scale-up threshold exactly in business hours and is below the scale-down threshold exactly off-hours |
| WebAppScaling.RequestsPerHour | src/cloudsim/CostOptimizationSimulation.java:37 | 150 requests in a business hour, 50 otherwise; always fewer than 1000, which is why the ids hour*1000+i of different hours never collide |
| WebAppScaling.BusinessHoursBefore | src/cloudsim/CostOptimizationSimulation.java:132-134 | the set of business hours among 0..n-1 has the size of an independent closed form (0 up to hour 8, then +1 per hour up to 10) |
| WebAppScaling.TenBusinessHoursPerDay | src/cloudsim/CostOptimizationSimulation.java:9-14 | exactly 10 of the 24 simulated hours are business hours, so 8 and 17 are both included |
| WebAppScaling.WebVms | src/cloudsim/CostOptimizationSimulation.java:105-113 | n VMs, VM k has id k and the 1000 MIPS / 2 PE / 2048 RAM / 1000 BW / 10000 size shape |
| WebAppScaling.CreateInitialVms | src/cloudsim/CostOptimizationSimulation.java:105-113 | the two initial VMs form a well-formed fleet: ids 0 and 1, web shape |
| WebAppScaling.CreateRequests | src/cloudsim/CostOptimizationSimulation.java:115-130 | count requests (none for a negative count), each 2000 MI, 1 PE, 300/300 file sizes and owned by the broker; their ids strictly increase and lie in [hour*1000, hour*1000+count) |
| WebAppScaling.AutoScale | src/cloudsim/CostOptimizationSimulation.java:141-160 | above 80 it appends exactly one web VM whose id is the old length and keeps the prefix; otherwise below 30 and above 2 VMs it drops exactly the last VM; otherwise the list is unchanged |
| WebAppScaling.AutoScalePreservesFleet | src/cloudsim/CostOptimizationSimulation.java:145-159 | one scaling step keeps ids equal to positions, the web shape, and the size at least 2 |
| WebAppScaling.ScaleDownUndoesScaleUp | src/cloudsim/CostOptimizationSimulation.java:145-159 | a scale-down right after a scale-up gives back the original list |
| WebAppScaling.ScalingKeepsFleet | src/cloudsim/CostOptimizationSimulation.java:141-160 | any run of scaling steps from a well-formed fleet of size at least 2 keeps it well formed and at least 2 |
| WebAppScaling.AnyScalingKeepsFleet | src/cloudsim/CostOptimizationSimulation.java:105-113 | starting from the initial VMs, after any sequence of scaling decisions, VM k has id k and there are at least 2 VMs |
| WebAppScaling.VmsAfterIsScalingRun | src/cloudsim/CostOptimizationSimulation.java:36-44 | the VM list after n hours equals the general scaling run from the initial VMs fed the utilisations of hours 0..n-1 in order |
| WebAppScaling.FleetAfter | src/cloudsim/CostOptimizationSimulation.java:141-160 | after the scaling decisions of any number of hours the VM list is well formed (VM k has id k and the web shape) and has at least 2 VMs, as an instance of the general scaling invariant |
| WebAppScaling.FleetSizeAfter | src/cloudsim/CostOptimizationSimulation.java:36-44 | after n hours the VM list size matches an independent closed form: 2 through hour 8, one more per business hour up to 12 by hour 18, one less per later hour down to the floor of 2 |
| WebAppScaling.RunHoursVms | src/cloudsim/CostOptimizationSimulation.java:36-44 | the VM list of the hour loop equals the fold of the scaling decisions alone; request generation never affects it |
| WebAppScaling.RunHoursRequests | src/cloudsim/CostOptimizationSimulation.java:36-40 | the request list of the hour loop equals the concatenation of each hour's requests in hour order; scaling never affects it |
| WebAppScaling.RunHoursSplit | src/cloudsim/CostOptimizationSimulation.java:36-44 | the hour loop's state is the pair of those two independent folds |
| WebAppScaling.RequestCount | src/cloudsim/CostOptimizationSimulation.java:36-39 | after n hours the number of requests matches an independent closed form (50 per early hour, 150 per business hour, 50 per later hour) |
| WebAppScaling.RequestBlockIncreasing | src/cloudsim/CostOptimizationSimulation.java:115-130 | one hour's requests have strictly increasing ids, all at least hour*1000 and below hour*1000 plus the count |
| WebAppScaling.RequestIds | src/cloudsim/CostOptimizationSimulation.java:36-39 | request ids over hours 0..n-1 strictly increase (so they are pairwise distinct) and stay below 1000*n, because no hour issues 1000 requests |
| WebAppScaling.RequestShape | src/cloudsim/CostOptimizationSimulation.java:119-126 | every request generated so far has length 2000, 1 PE and the broker's id |
| WebAppScaling.DaySummary | src/cloudsim/CostOptimizationSimulation.java:36-44 | 2 VMs after hour 7, 12 after hour 17, 6 at the end (the reported "Total VMs created" is this final size); 2200 requests with distinct ids |
| CostOptimization.CreateVm | src/cloudsim/simulations/CostOptimizationSimulation.java:108-114 | the VM copies the type's MIPS, PEs and RAM with BW 1000, size 10000 and "Xen"; round trip: a VM built from a catalogue type is looked up by the cost code as that same type |
| CostOptimization.FindTypeIn | src/cloudsim/simulations/CostOptimizationSimulation.java:177-187 | nothing is found exactly when no entry matches on (MIPS, RAM); otherwise the result is the first matching entry |
| CostOptimization.FindType | src/cloudsim/simulations/CostOptimizationSimulation.java:177-178 | the lookup in the driver's catalogue returns a catalogue entry that matches, or nothing when none matches |
| CostOptimization.CatalogueKeysDistinct | src/cloudsim/simulations/CostOptimizationSimulation.java:10-14 | the three catalogue (MIPS, RAM) pairs are pairwise distinct |
| CostOptimization.FindTypeUnique | src/cloudsim/simulations/CostOptimizationSimulation.java:177-187 | with distinct keys, a VM that matches entry i is looked up as entry i, so the first-match lookup is unambiguous |
| CostOptimization.CreatedVmHasItsType | src/cloudsim/simulations/CostOptimizationSimulation.java:108-114 | round trip: a VM built from a catalogue type is looked up as that type |
| CostOptimization.Fleet | src/cloudsim/simulations/CostOptimizationSimulation.java:77-105 | n VMs, VM i built with id i from the strategy's type for position i |
| CostOptimization.CheapestFirstVms | src/cloudsim/simulations/CostOptimizationSimulation.java:77-85 | 10 VMs, ids 0..9, VM i is exactly the VM built from Small with id i (500 MIPS / 1 PE / 512 RAM), each looked up as Small |
| CostOptimization.PerformanceFirstVms | src/cloudsim/simulations/CostOptimizationSimulation.java:87-95 | 3 VMs, ids 0..2, VM i is exactly the VM built from Large with id i (2000 MIPS / 4 PE / 2048 RAM), each looked up as Large |
| CostOptimization.BalancedVms | src/cloudsim/simulations/CostOptimizationSimulation.java:97-105 | 5 VMs, ids 0..4; VM i is exactly the VM built from Medium at even and Small at odd positions (so 1000 MIPS / 2 PE / 1024 RAM or 500 MIPS / 1 PE / 512 RAM, the broker's id, BW 1000, size 10000), and each is looked up as its type |
| CostOptimization.AllocateVms | src/cloudsim/simulations/CostOptimizationSimulation.java:72-75 | each strategy yields its fleet size, ids equal positions, and every VM has a catalogue type (so every VM is billed); the result is the strategy's fleet built position by position |
| CostOptimization.BalancedFleetCounts | src/cloudsim/simulations/CostOptimizationSimulation.java:100-102 | the first n balanced VMs hold ceil(n/2) Medium and floor(n/2) Small VMs |
| CostOptimization.BalancedMix | src/cloudsim/simulations/CostOptimizationSimulation.java:97-105 | the balanced strategy allocates 3 Medium and 2 Small VMs |
| CostOptimization.CreateWorkloads | src/cloudsim/simulations/CostOptimizationSimulation.java:158-171 | count cloudlets, cloudlet i has id i, 1 PE, length 1000+(i mod 3)*2000; every length is 1000, 3000 or 5000 and lengths repeat with period 3 |
| CostOptimization.MaxFinishOn | src/cloudsim/simulations/CostOptimizationSimulation.java:180-183 | nothing exactly when no cloudlet ran on the VM; otherwise a finish time of a cloudlet on that VM that bounds all the others on it |
| CostOptimization.MaxFinishTime | src/cloudsim/simulations/CostOptimizationSimulation.java:180-183 | 0 when no cloudlet ran on the VM, else the largest finish time there; non-negative when all finish times are |
| CostOptimization.VmCost | src/cloudsim/simulations/CostOptimizationSimulation.java:177-187 | a VM of unknown type or with no finished cloudlet adds 0; otherwise price times last finish / 3600; never negative for non-negative finish times |
| CostOptimization.TotalCost | src/cloudsim/simulations/CostOptimizationSimulation.java:173-190 | the total is 0 for no VMs and non-negative when all finish times are non-negative |
| CostOptimization.TotalCostAppend | src/cloudsim/simulations/CostOptimizationSimulation.java:173-190 | the bill of concatenated VM lists is the sum of their bills |
| CostOptimization.EqualBillsSum | src/cloudsim/simulations/CostOptimizationSimulation.java:175-188 | VMs that each add the same amount sum to that amount repeated once per VM |
| CostOptimization.CatalogueVmCost | src/cloudsim/simulations/CostOptimizationSimulation.java:177-186 | a VM built from a catalogue type is billed at that type's price |
| CostOptimization.UniformFleetCost | src/cloudsim/simulations/CostOptimizationSimulation.java:173-190 | VMs of one type t, each last finishing at T, cost price(t)*T/3600 per VM |
| CostOptimization.CheapestFirstHourCost | src/cloudsim/simulations/CostOptimizationSimulation.java:180-184 | ten Small VMs each last finishing at 3600 s cost exactly 0.50 |
| CostOptimization.SumCpuTimeBounds | src/cloudsim/simulations/CostOptimizationSimulation.java:192-197 | n CPU times within [lo, hi] sum to a value within [n*lo, n*hi] |
| CostOptimization.AvgCompletionTime | src/cloudsim/simulations/CostOptimizationSimulation.java:192-197 | 0 for no cloudlets; otherwise the result times the count is the sum of the CPU times (it is the arithmetic mean), and it lies within any interval containing all CPU times |

## Left out

- Everything the toolkit does is not modelled. This covers toolkit
  initialisation and simulation start and stop, datacenters, hosts, PEs,
  provisioners, VM and cloudlet schedulers, and the broker's event handling
  (`submitVmList`, `submitCloudletList`, `destroyVm`). That code is not part
  of this model. Finish times, CPU times and the VM each cloudlet ran on are
  inputs.
- `createDatacenter` and `createBroker` in both files are left out. They are
  pure configuration, and they return null when the toolkit throws.
- The cost driver's `main` and `testStrategy` are left out. They call into
  the toolkit and re-initialise it. They also use `this::` method references
  from a static context, which does not compile as written. Strategy dispatch
  is modelled as the `Strategy` datatype and `AllocateVms`.
- Logging and `printResults` are left out. The average response time printed
  there divides by the finished-cloudlet count with no empty guard. The final
  list size that it prints is proved in `DaySummary`.
- `calculateUtilization` takes the VM list but ignores it. `Utilization`
  takes only the hour.
- The cloudlet scheduler objects and the "full" utilisation models handed to
  the toolkit constructors are not recorded in the records.
- Java `double` rounding, NaN and infinities are not modelled. Money, time
  and utilisation are exact reals. VM MIPS is an integer: every value the
  drivers use is an integer, and the lookup compares it against the
  catalogue's integer MIPS.
- UniformFleetCost: states the uniform fleet's bill as a repeated sum. The
  separate lemma `RepeatIsProduct` turns a repeated sum into a product, and
  `CheapestFirstHourCost` applies both to reach 0.50. The product form is
  not stated directly for arbitrary prices.
