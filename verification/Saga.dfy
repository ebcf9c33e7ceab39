/** The saga entity of order-service: one persistent state machine per order. Every
    transition is a pure function that returns a new saga. */
module SagaEntity {
  import opened Basics

  datatype Step = ReserveStock | ProcessPayment | ReleaseStock | Completed | Failed

  datatype Status = Running | Succeeded | Aborted

  /** `now` and `nextRetryAt` are milliseconds; creation and update timestamps carry no
      behaviour and are not modelled. */
  datatype Saga = Saga(
    id: string,
    orderId: string,
    correlationId: string,
    step: Step,
    status: Status,
    retryCount: nat,
    lastError: Option<string>,
    nextRetryAt: Option<int>)

  const RETRY_TIMEOUT_MS: nat := 30_000
  const MAX_RETRIES: nat := 3
  const RETRIES_EXHAUSTED := "Max retries exceeded"

  function Start(id: string, orderId: string, correlationId: string, now: int): Saga {
    Saga(id, orderId, correlationId, ReserveStock, Running, 0, None, Some(now + RETRY_TIMEOUT_MS))
  }

  predicate CanHandle(saga: Saga, step: Step) {
    saga.status == Running && saga.step == step
  }

  function AdvanceTarget(step: Step): Option<Step> {
    match step
    case ReserveStock => Some(ProcessPayment)
    case ProcessPayment => Some(Completed)
    case _ => None
  }

  function Advance(saga: Saga, now: int): Outcome<Saga> {
    match AdvanceTarget(saga.step)
    case None => Threw("Cannot advance saga")
    case Some(next) =>
      if next == Completed
      then Done(saga.(step := next, status := Succeeded, nextRetryAt := None))
      else Done(saga.(step := next, status := Running, nextRetryAt := Some(now + RETRY_TIMEOUT_MS)))
  }

  function StartCompensation(saga: Saga, reason: string, now: int): Saga {
    saga.(step := ReleaseStock, status := Running, lastError := Some(reason),
          nextRetryAt := Some(now + RETRY_TIMEOUT_MS))
  }

  function Fail(saga: Saga, reason: string): Saga {
    saga.(step := Failed, status := Aborted, lastError := Some(reason), nextRetryAt := None)
  }

  function ScheduleRetry(saga: Saga, now: int): Saga {
    saga.(retryCount := saga.retryCount + 1,
          nextRetryAt := Some(now + RETRY_TIMEOUT_MS * Pow2(saga.retryCount + 1)))
  }

  predicate HasExceededMaxRetries(saga: Saga) {
    saga.retryCount >= MAX_RETRIES
  }

  // ---- what the transitions keep ----

  /** Only the two forward steps can be advanced from: compensation and the ends cannot. */
  lemma AdvanceAllowedIff(saga: Saga, now: int)
    ensures Advance(saga, now).Done? <==> saga.step == ReserveStock || saga.step == ProcessPayment
  {
  }

  /** Step, status, retry clock and retry budget fit together. */
  predicate Coherent(saga: Saga) {
    && (saga.status == Running <==> saga.step in {ReserveStock, ProcessPayment, ReleaseStock})
    && (saga.status == Succeeded <==> saga.step == Completed)
    && (saga.status == Running <==> saga.nextRetryAt.Some?)
    && saga.retryCount <= MAX_RETRIES
  }

  function StepRank(step: Step): nat {
    match step
    case ReserveStock => 3
    case ProcessPayment => 2
    case ReleaseStock => 1
    case _ => 0
  }

  /** How many more times the row can be updated: steps ahead plus retries left, and nothing
      once the saga has ended. */
  function UpdatesLeft(saga: Saga): int {
    if saga.status == Running then StepRank(saga.step) + MAX_RETRIES - saga.retryCount else 0
  }
}
