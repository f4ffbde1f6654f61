/** Leader election over one shared lease: each pod's turn, the timed protocol of several pods, and
    exactly how late a leader may be before two pods believe they lead.  Time is in microseconds. */
module Lease {
  import opened Types

  type Identity = string

  const SECOND := 1_000_000
  const LEASE_DURATION_SECS := 15
  const RENEW_INTERVAL := 5 * SECOND
  const RETRY_INTERVAL := 3 * SECOND

  datatype LeaseSpec = LeaseSpec(
    holderIdentity: Option<Identity>,
    leaseDurationSeconds: Option<int>,
    renewTime: Option<int>,
    leaseTransitions: Option<int>
  ) {
    function Holder(): Identity {
      if holderIdentity.Some? then holderIdentity.value else ""
    }

    function Transitions(): int {
      if leaseTransitions.Some? then leaseTransitions.value else 0
    }

    function Duration(): int {
      if leaseDurationSeconds.Some? then leaseDurationSeconds.value else LEASE_DURATION_SECS
    }
  }

  /** Whole seconds in a time span, rounded toward zero. */
  function NumSeconds(span: int): int {
    if 0 <= span then span / SECOND else -((-span) / SECOND)
  }

  predicate Expired(l: LeaseSpec, now: int) {
    l.renewTime.Some? ==> NumSeconds(now - l.renewTime.value) > l.Duration()
  }

  /** The lease is the pod's own, or anybody may take it. */
  predicate Free(l: LeaseSpec, me: Identity, now: int) {
    l.Holder() == me || Expired(l, now)
  }

  /** The transition count a pod writes when it takes or renews the lease. */
  function NextCount(l: LeaseSpec, me: Identity): int {
    if l.Holder() == me then l.Transitions() else l.Transitions() + 1
  }

  // ---------- One attempt ----------

  datatype LeaseError = ApiError

  /** What a pod decides to write after reading the lease. */
  datatype Plan = Create(spec: LeaseSpec) | Patch(spec: LeaseSpec) | Stand

  function Decide(lease: Option<LeaseSpec>, me: Identity, now: int): Plan {
    match lease
    case None => Create(LeaseSpec(Some(me), Some(LEASE_DURATION_SECS), Some(now), Some(0)))
    case Some(l) =>
      if Free(l, me, now) then Patch(LeaseSpec(Some(me), Some(LEASE_DURATION_SECS), Some(now), Some(NextCount(l, me))))
      else Stand
  }

  /** What the lease store makes of a plan: a create needs the lease to be absent, a patch needs it
      to be there, and neither checks what was read. */
  function Commit(lease: Option<LeaseSpec>, plan: Plan): (r: (Option<LeaseSpec>, Result<bool, LeaseError>)) {
    match plan
    case Create(spec) => if lease.None? then (Some(spec), Ok(true)) else (lease, Err(ApiError))
    case Patch(spec) => if lease.Some? then (Some(spec), Ok(true)) else (lease, Err(ApiError))
    case Stand => (lease, Ok(false))
  }

  /** What the cluster's API may do to one attempt. */
  datatype Fault = NoFault | ReadFails | WriteFails | ReplyLost

  /** An attempt that nobody interrupts: the lease after it, and what the pod is told. */
  function Attempt(lease: Option<LeaseSpec>, me: Identity, now: int, fault: Fault)
    : (r: (Option<LeaseSpec>, Result<bool, LeaseError>))
  {
    var plan := Decide(lease, me, now);
    if fault.ReadFails? then (lease, Err(ApiError))
    else if plan.Stand? then (lease, Ok(false))
    else if fault.WriteFails? then (lease, Err(ApiError))
    else (Commit(lease, plan).0, if fault.ReplyLost? then Err(ApiError) else Commit(lease, plan).1)
  }

  /** The whole attempt, told from the fields of the lease: absent, it is created; the pod's own, or
      without a renewal time, or older than its whole duration and one more second, it is taken or
      renewed; otherwise the pod stands back.  A failed read or write leaves the lease as it is; a lost
      reply leaves it written. */
  lemma AttemptExactly(lease: Option<LeaseSpec>, me: Identity, now: int, fault: Fault)
    ensures fault.ReadFails? ==> Attempt(lease, me, now, fault) == (lease, Err(ApiError))
    ensures lease.None? && !fault.ReadFails? ==>
              Attempt(lease, me, now, fault) ==
                (if fault.WriteFails? then (None, Err(ApiError))
                 else (Some(LeaseSpec(Some(me), Some(15), Some(now), Some(0))), if fault.ReplyLost? then Err(ApiError) else Ok(true)))
    ensures lease.Some? && !fault.ReadFails? ==>
              var l := lease.value;
              var mine := if l.holderIdentity.Some? then l.holderIdentity.value == me else me == "";
              var d := if l.leaseDurationSeconds.Some? then l.leaseDurationSeconds.value else 15;
              var over := l.renewTime.Some? ==>
                            if 0 <= d then (d + 1) * 1_000_000 <= now - l.renewTime.value else d * 1_000_000 < now - l.renewTime.value;
              var count := if l.leaseTransitions.Some? then l.leaseTransitions.value else 0;
              Attempt(lease, me, now, fault) ==
                (if !mine && !over then (lease, Ok(false))
                 else if fault.WriteFails? then (lease, Err(ApiError))
                 else (Some(LeaseSpec(Some(me), Some(15), Some(now), Some(if mine then count else count + 1))),
                       if fault.ReplyLost? then Err(ApiError) else Ok(true)))
  {
    if lease.Some? && lease.value.renewTime.Some? {
      WholeSeconds(now - lease.value.renewTime.value, lease.value.Duration());
    }
  }

  /** When a span, cut to whole seconds, is more than `d` seconds. */
  lemma WholeSeconds(span: int, d: int)
    ensures NumSeconds(span) > d <==> if 0 <= d then (d + 1) * 1_000_000 <= span else d * 1_000_000 < span
  {
    if 0 <= span {
      var n := span / SECOND;
      assert n * SECOND <= span < (n + 1) * SECOND;
    } else {
      var n := (-span) / SECOND;
      assert n * SECOND <= -span < (n + 1) * SECOND;
    }
  }

  datatype Pod = Pod(isLeader: bool, leaseHealthy: bool, wakeAt: int)

  /** A pod after one turn of its loop at `now`. */
  function PodAfter(p: Pod, r: Result<bool, LeaseError>, now: int): Pod {
    match r
    case Ok(true) => Pod(true, p.isLeader ==> p.leaseHealthy, now + RENEW_INTERVAL)
    case Ok(false) => Pod(false, !p.isLeader && p.leaseHealthy, now + RETRY_INTERVAL)
    case Err(_) => Pod(false, p.leaseHealthy, now + RETRY_INTERVAL)
  }

  type Answer = Result<bool, LeaseError>

  /** A pod's flags after the answers its loop has had since the process started. */
  function PodAfterAll(answers: seq<Answer>): Pod {
    if answers == [] then Pod(false, false, 0)
    else PodAfter(PodAfterAll(answers[..|answers| - 1]), answers[|answers| - 1], 0)
  }

  /** At answer `j` the pod is told that a lease it held at the answer before is somebody else's. */
  predicate ToldOfLoss(answers: seq<Answer>, j: nat)
    requires j < |answers|
  {
    0 < j && answers[j] == Ok(false) && answers[j - 1] == Ok(true)
  }

  /** Attempt `i` succeeded, and the pod has not been told of a loss since. */
  ghost predicate Undisputed(answers: seq<Answer>, i: nat) {
    && i < |answers| && answers[i] == Ok(true)
    && forall j :: i < j < |answers| ==> !ToldOfLoss(answers, j)
  }

  lemma UndisputedNext(earlier: seq<Answer>, last: Answer, i: nat)
    ensures var n, answers := |earlier|, earlier + [last];
            Undisputed(answers, i) <==> if i == n then last == Ok(true) else Undisputed(earlier, i) && !ToldOfLoss(answers, n)
  {
    var answers := earlier + [last];
    assert forall j :: 0 <= j < |earlier| ==> (ToldOfLoss(answers, j) <==> ToldOfLoss(earlier, j));
  }

  /** Some success stands undisputed. */
  ghost predicate Standing(answers: seq<Answer>) {
    exists i :: Undisputed(answers, i)
  }

  lemma StandingNext(earlier: seq<Answer>, last: Answer)
    ensures var answers := earlier + [last];
            Standing(answers) <==> last == Ok(true) || (Standing(earlier) && !ToldOfLoss(answers, |earlier|))
  {
    var n, answers := |earlier|, earlier + [last];
    if last == Ok(true) {
      UndisputedNext(earlier, last, n);
    } else {
      if Standing(earlier) && !ToldOfLoss(answers, n) {
        var i :| Undisputed(earlier, i);
        UndisputedNext(earlier, last, i);
      }
      if Standing(answers) {
        var i :| Undisputed(answers, i);
        UndisputedNext(earlier, last, i);
      }
    }
  }

  /** The pod leads exactly if its last attempt succeeded.  It counts as healthy exactly if some
      attempt has succeeded and it has not since been told of a loss right after a success: an error in
      between hides the loss. */
  lemma {:induction false} FlagsExactly(answers: seq<Answer>)
    ensures PodAfterAll(answers).isLeader <==> answers != [] && answers[|answers| - 1] == Ok(true)
    ensures PodAfterAll(answers).leaseHealthy <==> Standing(answers)
  {
    if answers != [] {
      hide Standing, ToldOfLoss;
      var n := |answers| - 1;
      var earlier, last := answers[..n], answers[n];
      assert answers == earlier + [last];
      assert PodAfterAll(answers) == PodAfter(PodAfterAll(earlier), last, 0);
      hide PodAfterAll;
      FlagsExactly(earlier);
      LeaderIsHealthy(earlier);
      LossMeans(earlier, last);
      StandingNext(earlier, last);
    }
  }

  lemma LossMeans(earlier: seq<Answer>, last: Answer)
    ensures ToldOfLoss(earlier + [last], |earlier|) <==>
              last == Ok(false) && earlier != [] && earlier[|earlier| - 1] == Ok(true)
  {
    assert (earlier + [last])[|earlier|] == last;
  }

  lemma {:induction false} LeaderIsHealthy(answers: seq<Answer>)
    ensures PodAfterAll(answers).isLeader ==> PodAfterAll(answers).leaseHealthy
  {
    if answers != [] {
      LeaderIsHealthy(answers[..|answers| - 1]);
    }
  }

  /** A pod that leads, misses one reply, and then finds the lease gone stays ready for ever: no
      number of refusals and errors clears the flag. */
  lemma {:induction false} ErrorHidesLoss(answers: seq<Answer>, later: seq<Answer>)
    requires answers != [] && answers[|answers| - 1] == Err(ApiError) && PodAfterAll(answers).leaseHealthy
    requires forall i :: 0 <= i < |later| ==> later[i] != Ok(true)
    ensures PodAfterAll(answers + later) == Pod(false, true, PodAfterAll(answers + later).wakeAt)
  {
    if later == [] {
      assert answers + later == answers;
    } else {
      var n := |later| - 1;
      ErrorHidesLoss(answers, later[..n]);
      assert (answers + later)[..|answers| + n] == answers + later[..n];
      assert later[n] != Ok(true);
    }
  }

  /** The shared lease record. */
  class LeaseStore {
    var lease: Option<LeaseSpec>

    constructor (lease: Option<LeaseSpec>)
      ensures this.lease == lease
    {
      this.lease := lease;
    }

    method GetOpt(fault: Fault) returns (r: Result<Option<LeaseSpec>, LeaseError>)
      ensures r == if fault.ReadFails? then Err(ApiError) else Ok(lease)
    {
      if fault.ReadFails? {
        return Err(ApiError);
      }
      return Ok(lease);
    }

    method Write(plan: Plan, fault: Fault) returns (r: Result<(), LeaseError>)
      requires !plan.Stand?
      modifies this
      ensures lease == if fault.WriteFails? then old(lease) else Commit(old(lease), plan).0
      ensures r.Ok? <==> !fault.WriteFails? && !fault.ReplyLost? && Commit(old(lease), plan).1.Ok?
    {
      if fault.WriteFails? {
        return Err(ApiError);
      }
      if plan.Create? != lease.None? {
        return Err(ApiError);
      }
      lease := Some(plan.spec);
      if fault.ReplyLost? {
        return Err(ApiError);
      }
      return Ok(());
    }
  }

  class LeaderElector {
    const identity: Identity
    var isLeader: bool
    var leaseHealthy: bool

    constructor (identity: Identity)
      ensures this.identity == identity && !isLeader && !leaseHealthy
    {
      this.identity := identity;
      isLeader, leaseHealthy := false, false;
    }

    /** One turn of the loop: attempt, update the flags, and say how long to sleep. */
    method Turn(leases: LeaseStore, now: int, fault: Fault) returns (sleep: int)
      modifies this`isLeader, this`leaseHealthy, leases
      ensures var a := Attempt(old(leases.lease), identity, now, fault);
              && leases.lease == a.0
              && Pod(isLeader, leaseHealthy, now + sleep) == PodAfter(Pod(old(isLeader), old(leaseHealthy), 0), a.1, now)
              && (isLeader <==> a.1 == Ok(true))
              && sleep == (if a.1 == Ok(true) then 5_000_000 else 3_000_000)
              && (a.1 == Ok(true) && !old(isLeader) ==> leaseHealthy)
              && (a.1 == Ok(false) && old(isLeader) ==> !leaseHealthy)
              && (a.1.Err? || a.1.value == old(isLeader) ==> leaseHealthy == old(leaseHealthy))
    {
      var attempt := TryAcquireOrRenew(leases, now, fault);
      match attempt {
        case Ok(true) =>
          if !isLeader {
            isLeader := true;
            leaseHealthy := true;
          }
          sleep := RENEW_INTERVAL;
        case Ok(false) =>
          if isLeader {
            isLeader := false;
            leaseHealthy := false;
          }
          sleep := RETRY_INTERVAL;
        case Err(_) =>
          isLeader := false;
          sleep := RETRY_INTERVAL;
      }
    }

    method TryAcquireOrRenew(leases: LeaseStore, now: int, fault: Fault) returns (r: Result<bool, LeaseError>)
      modifies leases
      ensures (leases.lease, r) == Attempt(old(leases.lease), identity, now, fault)
    {
      var read := leases.GetOpt(fault);
      if read.Err? {
        return Err(ApiError);
      }
      match read.value {
        case None =>
          var firstLease := LeaseSpec(Some(identity), Some(LEASE_DURATION_SECS), Some(now), Some(0));
          var created := leases.Write(Create(firstLease), fault);
          if created.Err? {
            return Err(ApiError);
          }
          return Ok(true);
        case Some(existing) =>
          var holder := if existing.holderIdentity.Some? then existing.holderIdentity.value else "";
          var duration := if existing.leaseDurationSeconds.Some? then existing.leaseDurationSeconds.value else LEASE_DURATION_SECS;
          var expired := if existing.renewTime.Some? then NumSeconds(now - existing.renewTime.value) > duration else true;
          var weHold := holder == identity;
          if weHold || expired {
            var transitions := (if existing.leaseTransitions.Some? then existing.leaseTransitions.value else 0)
                               + (if weHold then 0 else 1);
            var patch := LeaseSpec(Some(identity), Some(LEASE_DURATION_SECS), Some(now), Some(transitions));
            var patched := leases.Write(Patch(patch), fault);
            if patched.Err? {
              return Err(ApiError);
            }
            return Ok(true);
          }
          return Ok(false);
      }
    }
  }

  // ---------- Several pods on a shared clock ----------

  /** `holders` is every identity the lease has carried, oldest first; `base` is the transition
      count the cluster started with. */
  datatype Cluster = Cluster(
    now: int,
    lease: Option<LeaseSpec>,
    pods: map<Identity, Pod>,
    holders: seq<Identity>,
    base: int
  )

  datatype Action = Take(pod: Identity, fault: Fault) | Wait(until: int) | Stop(pod: Identity)

  /** A pod takes its turn once it is awake.  Time does not pass the moment at which a pod that
      believes it leads is more than `lag` late for its turn.  A pod may stop at any time; started
      again it is no leader, and awake. */
  ghost predicate Enabled(lag: nat, c: Cluster, a: Action) {
    match a
    case Take(p, _) => p in c.pods && c.pods[p].wakeAt <= c.now
    case Wait(until) =>
      c.now <= until && forall p :: p in c.pods && c.pods[p].isLeader ==> until <= c.pods[p].wakeAt + lag
    case Stop(p) => p in c.pods
  }

  function Apply(c: Cluster, a: Action): Cluster
    requires !a.Wait? ==> a.pod in c.pods
  {
    match a
    case Wait(until) => c.(now := until)
    case Stop(p) => c.(pods := c.pods[p := Pod(false, false, c.now)])
    case Take(p, fault) =>
      var r := Attempt(c.lease, p, c.now, fault);
      c.(lease := r.0,
         pods := c.pods[p := PodAfter(c.pods[p], r.1, c.now)],
         holders := if Writes(c.lease, p, c.now, fault) then c.holders + [p] else c.holders)
  }

  /** Does the attempt write the lease? */
  predicate Writes(lease: Option<LeaseSpec>, me: Identity, now: int, fault: Fault) {
    !Decide(lease, me, now).Stand? && !fault.ReadFails? && !fault.WriteFails?
  }

  /** Nobody leads yet; the lease may be absent or left over from earlier times. */
  ghost predicate Initial(c: Cluster) {
    && (forall p :: p in c.pods ==> !c.pods[p].isLeader && !c.pods[p].leaseHealthy)
    && c.holders == (if c.lease.Some? then [c.lease.value.Holder()] else [])
    && c.base == (if c.lease.Some? then c.lease.value.Transitions() else 0)
  }

  ghost predicate ValidRun(lag: nat, c: Cluster, actions: seq<Action>)
    decreases |actions|
  {
    actions == [] || (Enabled(lag, c, actions[0]) && ValidRun(lag, Apply(c, actions[0]), actions[1..]))
  }

  ghost function Run(lag: nat, c: Cluster, actions: seq<Action>): Cluster
    requires ValidRun(lag, c, actions)
    decreases |actions|
  {
    if actions == [] then c else Run(lag, Apply(c, actions[0]), actions[1..])
  }

  // ---------- Readiness ----------

  /** A turn that tells a leader that the lease is another pod's leaves it neither leading nor
      healthy; a turn that fails leaves it not leading, and as healthy as it was. */
  lemma TurnOfLeader(lag: nat, c: Cluster, p: Identity, fault: Fault)
    requires Enabled(lag, c, Take(p, fault)) && c.pods[p].isLeader
    ensures var pod, answer := Apply(c, Take(p, fault)).pods[p], Attempt(c.lease, p, c.now, fault).1;
            && (pod.isLeader <==> answer == Ok(true))
            && (answer == Ok(false) ==> !pod.leaseHealthy)
            && (answer != Ok(false) ==> pod.leaseHealthy == c.pods[p].leaseHealthy)
            && pod.wakeAt == c.now + (if answer == Ok(true) then 5_000_000 else 3_000_000)
  {
  }

  // ---------- Safety ----------

  /** The pod holds the lease, renewed it at its last turn, and is not late for the next. */
  ghost predicate Holds(lag: nat, c: Cluster, p: Identity) {
    && p in c.pods
    && c.lease.Some?
    && c.lease.value.holderIdentity == Some(p)
    && c.lease.value.leaseDurationSeconds == Some(LEASE_DURATION_SECS)
    && c.lease.value.renewTime == Some(c.pods[p].wakeAt - RENEW_INTERVAL)
    && c.now <= c.pods[p].wakeAt + lag
    && c.pods[p].leaseHealthy
  }

  /** Every pod that believes it leads does hold the lease. */
  ghost predicate Held(lag: nat, c: Cluster) {
    forall p :: p in c.pods && c.pods[p].isLeader ==> Holds(lag, c, p)
  }

  /** At most one pod believes it leads, and it is the recorded holder. */
  ghost predicate OneLeader(c: Cluster) {
    forall p, q :: p in c.pods && q in c.pods && c.pods[p].isLeader && c.pods[q].isLeader ==>
      p == q && c.lease.Some? && c.lease.value.holderIdentity == Some(p)
  }

  /** How many times the lease changed hands along a list of holders. */
  function Changes(holders: seq<Identity>): nat {
    if |holders| < 2 then 0
    else Changes(holders[..|holders| - 1]) + (if holders[|holders| - 1] != holders[|holders| - 2] then 1 else 0)
  }

  /** The lease names the last holder and counts the changes since the start. */
  ghost predicate Counted(c: Cluster) {
    if c.lease.None? then c.holders == [] && c.base == 0
    else c.holders != [] && c.holders[|c.holders| - 1] == c.lease.value.Holder()
         && c.lease.value.Transitions() == c.base + Changes(c.holders)
  }

  /** A renewed lease expires for others after sixteen whole seconds, not fifteen. */
  lemma ExpiresAfterSixteenSeconds(l: LeaseSpec, me: Identity, now: int, fault: Fault)
    requires l.leaseDurationSeconds == Some(LEASE_DURATION_SECS) && l.renewTime.Some? && l.renewTime.value <= now
    requires l.Holder() != me && fault.NoFault?
    ensures Attempt(Some(l), me, now, fault).1 == Ok(16 * SECOND <= now - l.renewTime.value)
  {
    var span := now - l.renewTime.value;
    if 16 * SECOND <= span {
      assert span / SECOND >= 16;
    } else {
      assert span / SECOND <= 15;
    }
  }

  lemma HeldStep(lag: nat, c: Cluster, a: Action)
    requires Held(lag, c) && Enabled(lag, c, a) && RENEW_INTERVAL + lag < 16 * SECOND
    ensures Held(lag, Apply(c, a))
  {
    var c' := Apply(c, a);
    if a.Take? {
      forall p | p in c'.pods && c'.pods[p].isLeader
        ensures Holds(lag, c', p)
      {
        if p != a.pod {
          assert c.pods[p].isLeader && c.lease.Some?;
          StillHeld(lag, c, p, a.pod);
        }
      }
    } else {
      forall p | p in c'.pods && c'.pods[p].isLeader
        ensures Holds(lag, c', p)
      {
        assert c.pods[p].isLeader;
      }
    }
  }

  /** While a leader is not late, no other pod writes the lease. */
  lemma StillHeld(lag: nat, c: Cluster, p: Identity, other: Identity)
    requires Holds(lag, c, p) && other != p && RENEW_INTERVAL + lag < 16 * SECOND
    ensures Decide(c.lease, other, c.now).Stand?
  {
    var l := c.lease.value;
    var span := c.now - l.renewTime.value;
    assert span < 16 * SECOND;
    if 0 <= span { assert span / SECOND <= 15; }
  }

  lemma CountedStep(c: Cluster, a: Action)
    requires Counted(c) && (!a.Wait? ==> a.pod in c.pods)
    ensures Counted(Apply(c, a))
  {
    hide Expired;
    if a.Take? && Writes(c.lease, a.pod, c.now, a.fault) {
      ChangesPush(c.holders, a.pod);
      hide Changes;
    }
  }

  lemma ChangesPush(holders: seq<Identity>, p: Identity)
    ensures Changes(holders + [p])
         == if holders == [] then 0 else Changes(holders) + (if p != holders[|holders| - 1] then 1 else 0)
  {
    assert (holders + [p])[..|holders|] == holders;
  }

  lemma InitialIsHeld(lag: nat, c: Cluster)
    requires Initial(c)
    ensures Held(lag, c) && Counted(c)
  {
  }

  /** In every run in which leaders are at most `lag` late, with renewal interval and lag together
      under sixteen seconds: one leader at a time, the recorded holder, whatever faults occur. */
  lemma {:induction false} SafeRun(lag: nat, c: Cluster, actions: seq<Action>)
    requires Held(lag, c) && ValidRun(lag, c, actions) && RENEW_INTERVAL + lag < 16 * SECOND
    ensures Held(lag, Run(lag, c, actions)) && OneLeader(Run(lag, c, actions))
    decreases |actions|
  {
    hide Held, Apply;
    if actions == [] {
      HeldMeansOne(lag, c);
    } else {
      HeldStep(lag, c, actions[0]);
      SafeRun(lag, Apply(c, actions[0]), actions[1..]);
    }
  }

  lemma HeldMeansOne(lag: nat, c: Cluster)
    requires Held(lag, c)
    ensures OneLeader(c)
  {
  }

  /** `leaseTransitions` always equals the number of times the holder changed. */
  lemma {:induction false} TransitionsCounted(lag: nat, c: Cluster, actions: seq<Action>)
    requires Counted(c) && ValidRun(lag, c, actions)
    ensures Counted(Run(lag, c, actions))
    decreases |actions|
  {
    if actions != [] {
      CountedStep(c, actions[0]);
      TransitionsCounted(lag, Apply(c, actions[0]), actions[1..]);
    }
  }

  /** One pod acquires; sixteen seconds later, with its renewal overdue, another takes over. */
  function Overrun(first: Identity, second: Identity): seq<Action> {
    [Take(first, NoFault), Wait(16 * SECOND), Take(second, NoFault)]
  }

  lemma OverrunSplits(lag: nat, first: Identity, second: Identity)
    requires first != second && 16 * SECOND <= RENEW_INTERVAL + lag
    ensures var c := Cluster(0, None, map[first := Pod(false, false, 0), second := Pod(false, false, 0)], [], 0);
            && Initial(c)
            && ValidRun(lag, c, Overrun(first, second))
            && !OneLeader(Run(lag, c, Overrun(first, second)))
  {
    var c := Cluster(0, None, map[first := Pod(false, false, 0), second := Pod(false, false, 0)], [], 0);
    var run := Overrun(first, second);
    var c1 := Apply(c, run[0]);
    var c2 := Apply(c1, run[1]);
    var c3 := Apply(c2, run[2]);
    assert run[1..] == [run[1], run[2]] && run[1..][1..] == [run[2]] && run[1..][1..][1..] == [];
    assert ValidRun(lag, c3, []);
    assert Enabled(lag, c2, run[2]) && ValidRun(lag, c2, [run[2]]) && Run(lag, c2, [run[2]]) == c3 by {
      assert [run[2]][1..] == [];
    }
    assert ValidRun(lag, c1, run[1..]) && Run(lag, c1, run[1..]) == c3;
    ExpiresAfterSixteenSeconds(c1.lease.value, second, 16 * SECOND, NoFault);
    assert c3.pods[first].isLeader && c3.pods[second].isLeader;
  }

  /** Two pods never believe they lead at once, in any run from any initial lease, exactly when the
      greatest lateness stays under eleven seconds, which with the renewal interval makes sixteen. */
  lemma SafetyThreshold(lag: nat)
    ensures (forall c: Cluster, actions: seq<Action> :: Initial(c) && ValidRun(lag, c, actions) ==> OneLeader(Run(lag, c, actions)))
       <==> lag < 11_000_000
  {
    if RENEW_INTERVAL + lag < 16 * SECOND {
      forall c: Cluster, actions: seq<Action> | Initial(c) && ValidRun(lag, c, actions)
        ensures OneLeader(Run(lag, c, actions))
      {
        InitialIsHeld(lag, c);
        SafeRun(lag, c, actions);
      }
    } else {
      OverrunSplits(lag, "a", "b");
    }
  }

  // ---------- Takeover ----------

  /** `q` stands by: no leader, and due for a turn within one retry interval. */
  predicate StandsBy(c: Cluster, q: Identity) {
    q in c.pods && !c.pods[q].isLeader && c.pods[q].wakeAt <= c.now + RETRY_INTERVAL
  }

  /** One step in which nothing that `h` writes gets through, while `q` keeps running, is never more
      than `late` late for its turn, and no call of its own fails. */
  predicate Succeeding(late: nat, h: Identity, q: Identity, c: Cluster, a: Action)
    requires q in c.pods
  {
    match a
    case Take(p, fault) => (p == h ==> !Writes(c.lease, p, c.now, fault)) && (p == q ==> fault.NoFault?)
    case Wait(until) => until <= c.pods[q].wakeAt + late
    case Stop(p) => p != q
  }

  ghost predicate Succession(lag: nat, late: nat, h: Identity, q: Identity, c: Cluster, actions: seq<Action>)
    requires q in c.pods
    decreases |actions|
  {
    actions == [] ||
    (Enabled(lag, c, actions[0]) && Succeeding(late, h, q, c, actions[0])
     && Succession(lag, late, h, q, Apply(c, actions[0]), actions[1..]))
  }

  ghost predicate HeldBy(c: Cluster, h: Identity) {
    c.lease.Some? && c.lease.value.Holder() == h
  }

  /** Until somebody takes over, the lease stays as `h` left it at `r`, and `q` will look at it less
      than one retry interval after the sixteenth second. */
  ghost predicate Waiting(late: nat, h: Identity, q: Identity, r: int, c: Cluster) {
    && q in c.pods && q != h
    && HeldBy(c, h)
    && c.lease.value.leaseDurationSeconds == Some(LEASE_DURATION_SECS)
    && c.lease.value.renewTime == Some(r) && r <= c.now
    && !c.pods[q].isLeader
    && c.pods[q].wakeAt < r + 16 * SECOND + RETRY_INTERVAL
    && c.now < r + 16 * SECOND + RETRY_INTERVAL + late
  }

  /** The lease has gone to somebody else than `h`. */
  ghost predicate Taken(h: Identity, c: Cluster) {
    c.lease.Some? && c.lease.value.Holder() != h
  }

  /** `q` holds the lease and leads. */
  ghost predicate Leads(q: Identity, c: Cluster) {
    HeldBy(c, q) && q in c.pods && c.pods[q].isLeader
  }

  lemma WaitingStep(lag: nat, late: nat, h: Identity, q: Identity, r: int, c: Cluster, a: Action)
    requires Waiting(late, h, q, r, c) && Enabled(lag, c, a) && Succeeding(late, h, q, c, a)
    ensures var c' := Apply(c, a);
            Waiting(late, h, q, r, c') || (a.Take? && a.pod != h && HeldBy(c', a.pod) && (a.pod == q ==> Leads(q, c')))
  {
    if a.Take? && a.pod == q {
      ExpiresAfterSixteenSeconds(c.lease.value, q, c.now, NoFault);
    }
  }

  lemma TakenStep(lag: nat, late: nat, h: Identity, q: Identity, c: Cluster, a: Action)
    requires q in c.pods && q != h && Enabled(lag, c, a) && Succeeding(late, h, q, c, a)
    ensures Taken(h, c) ==> Taken(h, Apply(c, a))
    ensures Leads(q, c) && (a.Take? ==> a.pod == h || a.pod == q) ==> Leads(q, Apply(c, a))
  {
  }

  lemma {:induction false} SuccessionSplits(lag: nat, late: nat, h: Identity, q: Identity, r: int, c: Cluster, actions: seq<Action>)
    requires q in c.pods && q != h && Succession(lag, late, h, q, c, actions)
    requires Waiting(late, h, q, r, c) || Taken(h, c)
    ensures ValidRun(lag, c, actions)
    ensures Waiting(late, h, q, r, Run(lag, c, actions)) || Taken(h, Run(lag, c, actions))
    decreases |actions|
  {
    hide Waiting, Taken, HeldBy, Succeeding, Leads, Apply;
    if actions != [] {
      var a := actions[0];
      TakeoverStep(lag, late, h, q, r, c, a);
      SuccessionSplits(lag, late, h, q, r, Apply(c, a), actions[1..]);
    }
  }

  lemma TakeoverStep(lag: nat, late: nat, h: Identity, q: Identity, r: int, c: Cluster, a: Action)
    requires q in c.pods && q != h && Enabled(lag, c, a) && Succeeding(late, h, q, c, a)
    ensures q in Apply(c, a).pods
    ensures Waiting(late, h, q, r, c) || Taken(h, c) ==> Waiting(late, h, q, r, Apply(c, a)) || Taken(h, Apply(c, a))
    ensures (Waiting(late, h, q, r, c) || Leads(q, c)) && (a.Take? ==> a.pod == h || a.pod == q) ==>
              Waiting(late, h, q, r, Apply(c, a)) || Leads(q, Apply(c, a))
  {
    TakenStep(lag, late, h, q, c, a);
    if Waiting(late, h, q, r, c) {
      WaitingStep(lag, late, h, q, r, c, a);
    }
  }

  /** `h` renewed the lease at `r`, less than sixteen seconds ago, and `q` stands by. */
  ghost predicate Renewed(h: Identity, q: Identity, r: int, c: Cluster) {
    && HeldBy(c, h) && h != q && StandsBy(c, q)
    && c.lease.value.leaseDurationSeconds == Some(LEASE_DURATION_SECS)
    && c.lease.value.renewTime == Some(r) && r <= c.now < r + 16 * SECOND
  }

  /** If the holder never renews again, the lease has gone to another pod sixteen seconds, a retry
      interval and the successor's lateness after the last renewal, whatever the other pods do. */
  lemma TakeoverBound(lag: nat, late: nat, h: Identity, q: Identity, r: int, c: Cluster, actions: seq<Action>)
    requires Renewed(h, q, r, c) && Succession(lag, late, h, q, c, actions)
    ensures ValidRun(lag, c, actions)
    ensures r + 16 * SECOND + RETRY_INTERVAL + late <= Run(lag, c, actions).now ==> Taken(h, Run(lag, c, actions))
  {
    SuccessionSplits(lag, late, h, q, r, c, actions);
  }

  lemma {:induction false} OnlySuccessor(lag: nat, late: nat, h: Identity, q: Identity, r: int, c: Cluster, actions: seq<Action>)
    requires q in c.pods && q != h && Succession(lag, late, h, q, c, actions)
    requires forall i :: 0 <= i < |actions| && actions[i].Take? ==> actions[i].pod == h || actions[i].pod == q
    requires Waiting(late, h, q, r, c) || Leads(q, c)
    ensures ValidRun(lag, c, actions)
    ensures Waiting(late, h, q, r, Run(lag, c, actions)) || Leads(q, Run(lag, c, actions))
    decreases |actions|
  {
    hide Waiting, Taken, HeldBy, Succeeding, Leads, Apply;
    if actions != [] {
      TakeoverStep(lag, late, h, q, r, c, actions[0]);
      OnlySuccessor(lag, late, h, q, r, Apply(c, actions[0]), actions[1..]);
    }
  }

  /** If no third pod takes a turn, it is the successor that holds the lease then, and leads. */
  lemma SuccessorLeads(lag: nat, late: nat, h: Identity, q: Identity, r: int, c: Cluster, actions: seq<Action>)
    requires Renewed(h, q, r, c) && Succession(lag, late, h, q, c, actions)
    requires forall i :: 0 <= i < |actions| && actions[i].Take? ==> actions[i].pod == h || actions[i].pod == q
    ensures ValidRun(lag, c, actions)
    ensures r + 16 * SECOND + RETRY_INTERVAL + late <= Run(lag, c, actions).now ==> Leads(q, Run(lag, c, actions))
  {
    OnlySuccessor(lag, late, h, q, r, c, actions);
  }

  /** In every such run the lease has changed hands `t` after the last renewal. */
  ghost predicate TakenWithin(late: nat, t: nat) {
    forall lag: nat, h: Identity, q: Identity, r: int, c: Cluster, actions: seq<Action> ::
      (Renewed(h, q, r, c) && Succession(lag, late, h, q, c, actions) && ValidRun(lag, c, actions)
       && r + t <= Run(lag, c, actions).now) ==> Taken(h, Run(lag, c, actions))
  }

  /** The bound is exact: the lease always changes hands within `t` if and only if `t` reaches it,
      nineteen seconds and the standby's lateness. */
  lemma TakeoverThreshold(late: nat, t: nat)
    ensures TakenWithin(late, t) <==> 19_000_000 + late <= t
  {
    if 16 * SECOND + RETRY_INTERVAL + late <= t {
      forall lag: nat, h: Identity, q: Identity, r: int, c: Cluster, actions: seq<Action>
        | Renewed(h, q, r, c) && Succession(lag, late, h, q, c, actions) && ValidRun(lag, c, actions)
          && r + t <= Run(lag, c, actions).now
        ensures Taken(h, Run(lag, c, actions))
      {
        TakeoverBound(lag, late, h, q, r, c, actions);
      }
    } else {
      LastMoment(late);
    }
  }

  /** The standby looks one moment too early, and comes back as late as it may. */
  lemma LastMoment(late: nat)
    ensures var l := LeaseSpec(Some("a"), Some(LEASE_DURATION_SECS), Some(0), Some(0));
            var c := Cluster(16 * SECOND - 1, Some(l), map["b" := Pod(false, false, 16 * SECOND - 1)], ["a"], 0);
            var run := [Take("b", NoFault), Wait(16 * SECOND - 1 + RETRY_INTERVAL + late)];
            && Renewed("a", "b", 0, c) && Succession(0, late, "a", "b", c, run) && ValidRun(0, c, run)
            && Run(0, c, run).now == 16 * SECOND + RETRY_INTERVAL + late - 1
            && !Taken("a", Run(0, c, run))
  {
    var l := LeaseSpec(Some("a"), Some(LEASE_DURATION_SECS), Some(0), Some(0));
    var c := Cluster(16 * SECOND - 1, Some(l), map["b" := Pod(false, false, 16 * SECOND - 1)], ["a"], 0);
    var run := [Take("b", NoFault), Wait(16 * SECOND - 1 + RETRY_INTERVAL + late)];
    ExpiresAfterSixteenSeconds(l, "b", c.now, NoFault);
    var c1 := Apply(c, run[0]);
    assert c1 == c.(pods := c.pods["b" := Pod(false, false, c.now + RETRY_INTERVAL)]);
    var c2 := Apply(c1, run[1]);
    assert run[1..] == [run[1]] && run[1..][1..] == [];
    assert Enabled(0, c1, run[1]) && Succeeding(late, "a", "b", c1, run[1]);
    assert Succession(0, late, "a", "b", c2, []) && ValidRun(0, c2, []);
    assert Succession(0, late, "a", "b", c1, run[1..]) && ValidRun(0, c1, run[1..]) && Run(0, c1, run[1..]) == c2;
  }

  // ---------- When reading and writing are separate calls ----------

  /** A pod read the lease as `read` and finds it as `found` when it writes.  Its attempt has the
      outcome of an atomic one at the time of writing exactly when both times the lease was absent, or
      both times it was there and stood to the pod alike: free or not, and if free, with the same
      count to write.  Who holds it, and since when, may differ. */
  lemma InterruptedExactly(read: Option<LeaseSpec>, found: Option<LeaseSpec>, me: Identity, now: int)
    ensures Commit(found, Decide(read, me, now)) == Attempt(found, me, now, NoFault)
       <==> (if read.None? || found.None? then read == found
             else && (Free(read.value, me, now) <==> Free(found.value, me, now))
                  && (Free(found.value, me, now) ==> NextCount(read.value, me) == NextCount(found.value, me)))
  {
    match found {
      case None => assert Decide(found, me, now).Create?;
      case Some(_) => assert !Decide(found, me, now).Create?;
    }
  }

  /** Being overtaken by another pod's take-over always shows: the late pod is told it leads although
      an atomic attempt would have told it to stand back. */
  lemma OvertakenIsWrong(l: LeaseSpec, me: Identity, other: Identity, now: int, later: int)
    requires me != other && Expired(l, now) && now <= later < now + 16 * SECOND
    ensures var found := Commit(Some(l), Decide(Some(l), other, now)).0;
            && found.Some?
            && Commit(found, Decide(Some(l), me, now)).1 == Ok(true)
            && Attempt(found, me, later, NoFault) == (found, Ok(false))
  {
    var span := later - now;
    assert span / SECOND <= 15;
  }

  /** Two pods that both read the lease before either writes: both are told they lead exactly when
      the lease was there and each was free to take it; two creates cannot both succeed. */
  lemma RaceOutcome(lease: Option<LeaseSpec>, first: Identity, second: Identity, now1: int, now2: int)
    requires first != second
    ensures var one := Commit(lease, Decide(lease, first, now1));
            var two := Commit(one.0, Decide(lease, second, now2));
            (one.1 == Ok(true) && two.1 == Ok(true))
              <==> lease.Some? && Free(lease.value, first, now1) && Free(lease.value, second, now2)
  {
  }

  /** When both win, the transition count has grown by the changes of holder exactly when the first to
      write held the lease already; otherwise it has missed one, or both. */
  lemma RaceCountExactly(l: LeaseSpec, first: Identity, second: Identity, now1: int, now2: int)
    requires first != second && Free(l, first, now1) && Free(l, second, now2)
    ensures var one := Commit(Some(l), Decide(Some(l), first, now1));
            var two := Commit(one.0, Decide(Some(l), second, now2));
            && two.0.Some?
            && (two.0.value.Transitions() == l.Transitions() + Changes([l.Holder(), first, second]) <==> l.Holder() == first)
            && two.0.value.Transitions() == l.Transitions() + Changes([l.Holder(), first, second])
                 - (if l.Holder() == first then 0 else if l.Holder() == second then 2 else 1)
  {
    ChangesOfThree(l.Holder(), first, second);
  }

  lemma ChangesOfThree(a: Identity, b: Identity, c: Identity)
    ensures Changes([a, b, c]) == (if a == b then 0 else 1) + (if b == c then 0 else 1)
  {
    assert [a, b, c][..2] == [a, b] && [a, b][..1] == [a];
    assert Changes([a, b]) == if a == b then 0 else 1;
  }

  /** On an expired lease of a third pod the race has two winners, and the transition count
      misses one of the two changes of holder. */
  lemma RaceTwoWinners(l: LeaseSpec, first: Identity, second: Identity, now: int)
    requires first != second && l.Holder() != first && l.Holder() != second && Expired(l, now)
    ensures var one := Commit(Some(l), Decide(Some(l), first, now));
            var two := Commit(one.0, Decide(Some(l), second, now));
            && one.1 == Ok(true) && two.1 == Ok(true)
            && one.0.Some? && one.0.value.Holder() == first
            && two.0.Some? && two.0.value.Holder() == second
            && two.0.value.Transitions() == l.Transitions() + 1
            && Changes([l.Holder(), first, second]) == 2
  {
    ChangesOfThree(l.Holder(), first, second);
  }
}
