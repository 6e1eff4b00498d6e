/** The simulation toolkit's records, as far as the two drivers use them:
    a VM request, a cloudlet (unit of work) and the toolkit's report on a
    cloudlet it has finished. Both drivers share these. */
module Entities {

  /** A VM request as passed to the toolkit's `Vm` constructor:
      id, owning broker (user) id, MIPS rating, number of PEs, RAM (MB),
      bandwidth, image size and hypervisor name. The cloudlet scheduler
      object handed to the constructor belongs to the toolkit and is not
      part of the record. */
  datatype Vm = Vm(
    id: int,
    userId: int,
    mips: int,
    pes: int,
    ram: int,
    bw: int,
    size: int,
    vmm: string)

  /** A cloudlet as built by the drivers: id, owning broker id, length in
      millions of instructions, PEs needed, input and output file sizes.
      The utilisation models are always "full" and are not recorded. */
  datatype Cloudlet = Cloudlet(
    id: int,
    userId: int,
    length: int,
    pes: int,
    fileSize: int,
    outputSize: int)

  /** A cloudlet as returned by the broker after the toolkit ran it. The VM
      it ran on, its finish time and its CPU time (seconds) are computed by
      the toolkit, so the model takes them as given. Times are exact reals
      standing in for Java doubles. */
  datatype FinishedCloudlet = FinishedCloudlet(
    cloudlet: Cloudlet,
    vmId: int,
    finishTime: real,
    actualCpuTime: real)

  /** The drivers number their VMs 0, 1, 2, ... in list order. */
  predicate IdsMatchPositions(vms: seq<Vm>)
  {
    forall k :: 0 <= k < |vms| ==> vms[k].id == k
  }
}
