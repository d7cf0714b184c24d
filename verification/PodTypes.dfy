/** The entities of the pod manager: pods as the API server stores them, the
    state the controller derives from a pod, and the pool configuration. */
module PodTypes {

  import opened Basics

  const STUCK_STANDBY_TIMEOUT: Time := 600 * SECOND

  datatype Phase = Unset | Pending | Running | Succeeded | Failed | Unknown

  /** A resourceVersion is an integer string; anything else cannot be ordered. */
  datatype ResourceVersion = Version(n: int) | Unparseable(text: string)

  const NO_VERSION := Unparseable("")

  /** The value of an annotation: missing, an RFC 3339 instant (whole seconds),
      or some other text. */
  datatype Annotation = Absent | Stamp(seconds: int) | Text(text: string)

  datatype Condition = Condition(kind: string, status: string)

  /** A pod object as the API server stores it. */
  datatype Pod = Pod(
    name: string,
    pool: string,
    templateHash: string,
    ip: string,
    phase: Phase,
    conditions: seq<Condition>,
    terminating: bool,
    claimed: Annotation,
    lease: Annotation,
    version: ResourceVersion,
    createdAt: Time)

  /** The controller's view of one pod. */
  datatype PodState = PodState(
    name: string,
    pool: string,
    ip: string,
    phase: Phase,
    ready: bool,
    deleting: bool,
    claimed: bool,
    leaseExpires: Time,
    templateHash: string,
    version: ResourceVersion,
    createdAt: Time)

  /** A pool: its target size and the hash of its pod template. */
  datatype PoolConfig = PoolConfig(count: int, templateHash: string)

  type Config = map<string, PoolConfig>

  predicate Terminal(phase: Phase) {
    phase == Succeeded || phase == Failed
  }

  predicate ReadyCondition(conditions: seq<Condition>) {
    Condition("Ready", "True") in conditions
  }

  predicate NonEmpty(a: Annotation) {
    a != Absent && a != Text("")
  }

  /** A lease that does not parse counts as expired since the zero time. */
  function LeaseInstant(a: Annotation): Time {
    match a
    case Stamp(seconds) => seconds * SECOND
    case _ => ZERO_TIME
  }

  /** Formatting an instant as RFC 3339 drops the fraction of its second. */
  function FormatSeconds(t: Time): (seconds: int)
    ensures seconds * SECOND <= t < seconds * SECOND + SECOND
  {
    t / SECOND
  }

  function StateOf(pod: Pod): PodState {
    PodState(
      pod.name, pod.pool, pod.ip, pod.phase, ReadyCondition(pod.conditions),
      pod.terminating, NonEmpty(pod.claimed), LeaseInstant(pod.lease),
      pod.templateHash, pod.version, pod.createdAt)
  }
}
