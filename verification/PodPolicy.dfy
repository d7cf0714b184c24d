/** The rules by which the pod manager judges a pod: which pods may be handed
    out, and what a reconcile pass does with each pod. */
module PodPolicy {
  import opened Basics
  import opened PodTypes

  datatype Reason = Terminated | ExpiredLease | StaleTemplate | StuckStandby | SurplusStandby

  datatype Verdict = Ignore | Sweep(reason: Reason) | Standby

  predicate ReadyStandby(p: PodState) {
    p.phase == Running && p.ready && p.ip != ""
  }

  predicate Current(cfg: Config, p: PodState) {
    p.pool in cfg && p.templateHash == cfg[p.pool].templateHash
  }

  /** The pods Allocate may try for a pool. */
  predicate Candidate(cfg: Config, pool: string, p: PodState) {
    && pool in cfg
    && p.pool == pool
    && p.templateHash == cfg[pool].templateHash
    && !p.deleting
    && !p.claimed
    && ReadyStandby(p)
  }

  /** A cached sandbox a client may renew: claimed, not terminating, lease running. */
  predicate Renewable(p: PodState, now: Time) {
    p.claimed && !p.deleting && now <= p.leaseExpires
  }

  /** A cached sandbox a client may release. */
  predicate Releasable(p: PodState) {
    p.claimed && !p.deleting
  }

  predicate Stuck(now: Time, p: PodState) {
    p.createdAt != ZERO_TIME && now - p.createdAt > STUCK_STANDBY_TIMEOUT && !ReadyStandby(p)
  }

  /** What one reconcile pass at `now` decides about one listed pod, before the
      pools are trimmed to size. */
  function Classify(cfg: Config, now: Time, p: PodState): Verdict {
    if p.deleting then Ignore
    else if Terminal(p.phase) then Sweep(Terminated)
    else if p.claimed then (if now > p.leaseExpires then Sweep(ExpiredLease) else Ignore)
    else if !Current(cfg, p) then Sweep(StaleTemplate)
    else if Stuck(now, p) then Sweep(StuckStandby)
    else Standby
  }

  // ---------------------------------------------------------------- in terms of the pod

  /** A pod that may be handed out: not claimed, not terminating, of the pool's
      template, running, ready and addressed. */
  predicate Free(cfg: Config, pool: string, pod: Pod) {
    && !NonEmpty(pod.claimed) && !pod.terminating
    && pool in cfg && pod.pool == pool && pod.templateHash == cfg[pool].templateHash
    && pod.phase == Running && Condition("Ready", "True") in pod.conditions && pod.ip != ""
  }

  lemma CandidatesAreFree(cfg: Config, pool: string, pod: Pod)
    ensures Candidate(cfg, pool, StateOf(pod)) <==> Free(cfg, pool, pod)
  {
  }

  predicate IsClaimed(pod: Pod) {
    pod.claimed.Stamp? || (pod.claimed.Text? && pod.claimed.text != "")
  }

  /** Ten minutes after its creation, if that is known, the pod is not ready. */
  predicate Overdue(now: Time, pod: Pod) {
    && pod.createdAt != ZERO_TIME && now - pod.createdAt > 10 * 60 * 1_000_000_000
    && !(pod.phase == Running && Condition("Ready", "True") in pod.conditions && pod.ip != "")
  }

  /** Why a pod is swept, if it is: the first reason that applies, in the order
      terminated, expired lease, stale template, stuck. A terminating pod never is,
      and a claimed one only for the first two; a lease that does not parse has run
      out. */
  lemma VerdictMeans(cfg: Config, now: Instant, pod: Pod)
    ensures var verdict := Classify(cfg, now, StateOf(pod));
            var over := pod.phase == Succeeded || pod.phase == Failed;
            var idle := !pod.terminating && !over && !IsClaimed(pod);
            var current := pod.pool in cfg && pod.templateHash == cfg[pod.pool].templateHash;
            && (verdict == Sweep(Terminated) <==> !pod.terminating && over)
            && (verdict == Sweep(ExpiredLease)
                <==> !pod.terminating && !over && IsClaimed(pod)
                     && (pod.lease.Stamp? ==> now > pod.lease.seconds * SECOND))
            && (verdict == Sweep(StaleTemplate) <==> idle && !current)
            && (verdict == Sweep(StuckStandby) <==> idle && current && Overdue(now, pod))
            && (verdict == Standby <==> idle && current && !Overdue(now, pod))
            && verdict != Sweep(SurplusStandby)
  {
    assert Modern(now);
  }
}
