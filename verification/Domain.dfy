/** The entities of the retry engine, the processor catalogue and the decline classifier.
    Times are integer nanoseconds, amounts integer minor units, costs integer cents. */
module Domain {

  datatype Option<+T> = None | Some(value: T)

  datatype Error = NotFound | DuplicateId

  datatype Result<+T> = Ok(value: T) | Err(error: Error)

  datatype Id = Id(text: string)

  /** Any text that is not one of the nine known codes is an UnknownCode. */
  datatype Code =
    | InsufficientFunds | CardExpired | InvalidCard | FraudSuspected
    | ProcessorTimeout | NetworkError | IssuerUnavailable | DoNotHonor | RateLimitExceeded
    | UnknownCode(text: string)

  datatype DeclineType = HardDecline | SoftDecline

  datatype Strategy = DoNotRetry | Immediate | Delayed | AlternativeProcessor

  datatype HealthState = Healthy | Degraded | Down

  datatype Processor = ProcessorA | ProcessorB | ProcessorC | OtherProcessor(name: string)

  datatype Status = Pending | HardDeclined | Retrying | Recovered | Exhausted

  datatype FailureEvent = FailureEvent(
    id: Id, amount: int, currency: string, code: Code, processor: Processor, timestamp: int)

  datatype Classification = Classification(decline: DeclineType, strategy: Strategy, code: Code)

  datatype RetryAttempt = RetryAttempt(
    number: int, processor: Processor, strategy: Strategy, success: bool,
    cost: int, delay: int, timestamp: int)

  datatype Decision = Decision(
    id: Id, number: int, source: Processor, target: Processor,
    strategy: Strategy, delay: int, timestamp: int)

  /** The value of a transaction record. */
  datatype Tx = Tx(
    id: Id, event: FailureEvent, classification: Classification, status: Status,
    retryCount: int, maxRetries: int, attempts: seq<RetryAttempt>, totalCost: int,
    createdAt: int, updatedAt: int, recoveredAt: Option<int>)

  datatype Snapshot = Snapshot(
    processor: Processor, state: HealthState, failureRate: real,
    total: nat, failures: nat, successes: nat, windowStart: int, windowEnd: int)

  const MAX_RETRIES: int := 3
  const DELAY_SECONDS: int := 30

  /** The list of processors in its fixed order, and the price of one attempt on each. */
  datatype Catalog = Catalog(names: seq<Processor>, costs: map<Processor, nat>) {

    /** A processor without an entry costs nothing, like a missing key of the price map. */
    function Cost(p: Processor): nat {
      if p in costs then costs[p] else 0
    }

    /** What the routing results need of a catalogue: no name twice, every name priced,
        all prices different and below the $999 sentinel of the fallback search. */
    ghost predicate Ok() {
      && (forall i, j :: 0 <= i < j < |names| ==> names[i] != names[j])
      && (forall p <- names :: p in costs && costs[p] < COST_SENTINEL)
      && (forall p <- names, q <- names :: p != q ==> costs[p] != costs[q])
    }
  }

  const COST_SENTINEL: nat := 99900

  const REAL_CATALOG: Catalog := Catalog(
    [ProcessorA, ProcessorB, ProcessorC],
    map[ProcessorA := 30, ProcessorB := 25, ProcessorC := 20])

  lemma RealCatalogOk()
    ensures REAL_CATALOG.Ok() && REAL_CATALOG.names == [ProcessorA, ProcessorB, ProcessorC]
    ensures forall p :: REAL_CATALOG.Cost(p) ==
              if p == ProcessorA then 30 else if p == ProcessorB then 25 else if p == ProcessorC then 20 else 0
  {
  }

  function Classify(event: FailureEvent): Classification {
    match event.code
    case ProcessorTimeout | NetworkError => Classification(SoftDecline, Immediate, event.code)
    case IssuerUnavailable | DoNotHonor => Classification(SoftDecline, AlternativeProcessor, event.code)
    case RateLimitExceeded => Classification(SoftDecline, Delayed, event.code)
    case InsufficientFunds | CardExpired | InvalidCard | FraudSuspected | UnknownCode(_) =>
      Classification(HardDecline, DoNotRetry, event.code)
  }

  /** The rules by strategy: unknown codes fail safe, nothing hard is ever retried, and everything soft
      is. */
  lemma RulesAreFailSafe(event: FailureEvent)
    ensures var c := Classify(event);
            && c.code == event.code
            && (c.strategy == DoNotRetry <==> c.decline == HardDecline)
            && (c.strategy == Immediate <==> event.code in {ProcessorTimeout, NetworkError})
            && (c.strategy == AlternativeProcessor <==> event.code in {IssuerUnavailable, DoNotHonor})
            && (c.strategy == Delayed <==> event.code == RateLimitExceeded)
            && (event.code.UnknownCode? ==> c.decline == HardDecline)
  {
  }
}
