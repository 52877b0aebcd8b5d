/** Row records of the coordinator's store (one datatype per table) and the
    view models the pages build. Times are whole seconds counted from
    DateTime.MinValue, so that a missing time can default to `MinTime`. */
module Records {

  datatype Option<+T> = None | Some(value: T)

  datatype Result<+T, +E> = Success(value: T) | Failure(error: E)

  /** Seconds since 0001-01-01T00:00:00 (DateTime.MinValue). */
  type Time = nat

  const MinTime: Time := 0

  /** DC_Eqps: one piece of equipment. */
  datatype DcEqp = DcEqp(name: string, eqpType: string, line: string, note: Option<string>)

  /** DC_Actl: one track-in event (telemetry) of a lot at an equipment. */
  datatype DcActl = DcActl(
    eqpId: string,
    lotId: string,
    lotType: string,
    trackInTime: Time,
    carrier: string,
    qty: int,
    ppid: string,
    next: string,
    location: string,
    endTime: Option<Time>)

  /** DC_Batch: one step row of a carrier inside a batch. */
  datatype DcBatch = DcBatch(
    batchId: string,
    step: int,
    carrierId: string,
    lotId: Option<string>,
    qty: int,
    technology: Option<string>,
    eqpId: string,
    ppid: string,
    nextEqpId: string,
    isProcessed: bool,
    createdAt: Time,
    processedAt: Option<Time>)

  /** DC_BatchMembers: one summary row per carrier of a batch. */
  datatype DcBatchMember = DcBatchMember(
    batchId: string,
    carrierId: string,
    lotId: string,
    qty: int,
    technology: string)

  /** DC_Wips: a lot waiting for assignment. */
  datatype DcWip = DcWip(
    priority: int,
    technology: string,
    carrier: string,
    lotId: string,
    qty: int,
    partName: string,
    currentStage: string,
    currentStep: string,
    targetStage: string,
    targetStep: string,
    targetEqpId: string,
    targetPPID: string,
    state: string,
    next1: string,
    next2: string,
    next3: string)

  /** DC_CarrierSteps: the route a carrier is to follow, one row per step. */
  datatype DcCarrierStep = DcCarrierStep(carrier: string, qty: int, step: int, eqpId: string, ppid: string)

  /** One line of a progress column. */
  datatype ProcessItem = ProcessItem(
    carrier: string,
    lot: string,
    qty: int,
    ppid: string,
    nextFurnace: string,
    location: string,
    endTime: string)

  /** The progress card of one equipment. The note and the reserved batch ids
      are filled by the dashboard only. */
  datatype EquipmentProgress = EquipmentProgress(
    eqpName: string,
    line: string,
    note: Option<string>,
    inProcess: seq<ProcessItem>,
    waiting: seq<ProcessItem>,
    reserved1: seq<ProcessItem>,
    reserved2: seq<ProcessItem>,
    reserved3: seq<ProcessItem>,
    reserved1BatchId: Option<string>,
    reserved2BatchId: Option<string>,
    reserved3BatchId: Option<string>)

  datatype StepInfo = StepInfo(eqpId: string, ppid: string)

  const EmptyStep := StepInfo("", "")

  /** One row of the batch creation form: a carrier and its first four steps.
      The state and the next-step columns are never filled. */
  datatype CarrierStepView = CarrierStepView(
    carrier: string,
    qty: int,
    lotId: string,
    technology: string,
    state: string,
    next1: string,
    next2: string,
    next3: string,
    step1: StepInfo,
    step2: StepInfo,
    step3: StepInfo,
    step4: StepInfo)
}

/** The shared store: one sequence of rows per table, in store order. */
module Data {
  import opened Records

  class Store {
    var eqps: seq<DcEqp>
    var wips: seq<DcWip>
    var carrierSteps: seq<DcCarrierStep>
    var batches: seq<DcBatch>
    var members: seq<DcBatchMember>
    var actls: seq<DcActl>

    constructor (eqps: seq<DcEqp>, wips: seq<DcWip>, carrierSteps: seq<DcCarrierStep>,
                 batches: seq<DcBatch>, members: seq<DcBatchMember>, actls: seq<DcActl>)
      ensures this.eqps == eqps && this.wips == wips && this.carrierSteps == carrierSteps
      ensures this.batches == batches && this.members == members && this.actls == actls
    {
      this.eqps := eqps;
      this.wips := wips;
      this.carrierSteps := carrierSteps;
      this.batches := batches;
      this.members := members;
      this.actls := actls;
    }
  }
}
