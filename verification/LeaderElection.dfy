/** The lease protocol of 03-member-nodes/pkg/redis/leaderelection.go. */
module LeaderElection {
  import opened Outcomes
  import opened RedisClient

  const LEASE_TTL: nat := 5000
  const RENEW_INTERVAL: nat := 2000

  // ---------------------------------------------------------------------------------------
  // One instance
  // ---------------------------------------------------------------------------------------

  /** A tick: SetNX at `now`, then, if it was refused, whatever others do, then the renewal. */
  datatype TickEnv = TickEnv(now: nat, nx: Fault, others: seq<Other>, renew: Fault)

  function Tick(key: Lease, id: nat, env: TickEnv): (Lease, bool) {
    var (nxKey, granted) := SetNX(key, id, env.now, LEASE_TTL);
    if env.nx.Lost? then (key, false)
    else if env.nx.Unacknowledged? then (nxKey, false)
    else if granted then (nxKey, true)
    else
      var (othersKey, later) := Meanwhile(key, env.now, LEASE_TTL, env.others);
      var (renewedKey, renewed) := RenewIfValue(othersKey, id, later, LEASE_TTL);
      (if env.renew.Lost? then othersKey else renewedKey, env.renew.Delivered? && renewed)
  }

  /** The key after Stop: it is released only by an instance that thought it held it. */
  function StopStep(key: Lease, wasLeader: bool, id: nat, now: nat, f: Fault): Lease {
    if wasLeader && !f.Lost? then DelIfValue(key, id, now).0 else key
  }

  class Election {
    const client: Client
    const instanceId: nat
    var isLeader: bool

    constructor (client: Client, instanceId: nat)
      ensures this.client == client && this.instanceId == instanceId && !isLeader
    {
      this.client := client;
      this.instanceId := instanceId;
      isLeader := false;
    }

    method TryAcquireOrRenew(env: TickEnv)
      modifies this, client`lease
      ensures (client.lease, isLeader) == Tick(old(client.lease), instanceId, env)
    {
      var acquired := client.SetLeaseNX(instanceId, env.now, LEASE_TTL, env.nx);
      if acquired.Err? {
        isLeader := false;
        return;
      }
      if acquired.value {
        isLeader := true;
        return;
      }
      var later := client.OthersRun(env.now, LEASE_TTL, env.others);
      var renewed := client.RenewLease(instanceId, later, LEASE_TTL, env.renew);
      if renewed.Err? {
        isLeader := false;
        return;
      }
      isLeader := renewed.value;
    }

    /** The lock is released only if this instance thought it held it. */
    method Stop(now: nat, f: Fault)
      modifies this, client`lease
      ensures !isLeader
      ensures client.lease == StopStep(old(client.lease), old(isLeader), instanceId, now, f)
    {
      var wasLeader := isLeader;
      isLeader := false;
      if wasLeader {
        var _ := client.DeleteLease(instanceId, now, f);
      }
    }
  }

  // ---------------------------------------------------------------------------------------
  // All instances, step by step
  // ---------------------------------------------------------------------------------------

  /** Where an instance is: outside a tick, waiting for a command to be served, or for its reply to arrive.
      Inside a tick the lock is held, so the flag cannot be read. */
  datatype Phase =
    | Idle
    | NxSent
    | NxServed(granted: bool)
    | RenewSent
    | RenewServed(renewed: bool)
    | Releasing
    | Stopped

  /** `lastGrant` is the time at which Redis last granted or renewed for a tick of this instance,
      `began` and `ended` are the times of its last tick. */
  datatype Candidate = Candidate(isLeader: bool, phase: Phase, lastGrant: nat, began: nat, ended: nat)
  {
    /** What IsLeader returns to a reader that gets the lock now. */
    predicate ReadsTrue() {
      isLeader && phase.Idle?
    }

    function EndTick(leads: bool, now: nat): Candidate {
      this.(isLeader := leads, phase := Idle, ended := now)
    }

    predicate Ticking() {
      phase.NxSent? || phase.NxServed? || phase.RenewSent? || phase.RenewServed?
    }

    predicate Trusts() {
      isLeader || phase == NxServed(true) || phase == RenewServed(true)
    }
  }

  datatype Cluster = Cluster(now: nat, lease: Lease, nodes: map<nat, Candidate>)

  /** `Stray` steps are commands served late or twice: retransmissions, and requests whose sender has
      given up. A deletion is only ever sent by an instance that has stopped. */
  datatype Step =
    | Advance(ms: nat)
    | StartTick(id: nat)
    | ServeNx(id: nat)
    | ServeRenew(id: nat)
    | Reply(id: nat)
    | Fail(id: nat)
    | StopNode(id: nat)
    | ServeRelease(id: nat)
    | StrayNx(id: nat)
    | StrayRenew(id: nat)
    | StrayDel(id: nat)

  function Update(c: Cluster, id: nat, n: Candidate, key: Lease): Cluster {
    c.(nodes := c.nodes[id := n], lease := key)
  }

  predicate MayDelete(c: Cluster, id: nat) {
    id in c.nodes ==> c.nodes[id].phase.Releasing? || c.nodes[id].phase.Stopped?
  }

  /** A step that its instance cannot take now changes nothing. */
  function Next(c: Cluster, s: Step): Cluster {
    match s
    case Advance(ms) => c.(now := c.now + ms)
    case StrayNx(id) => c.(lease := SetNX(c.lease, id, c.now, LEASE_TTL).0)
    case StrayRenew(id) => c.(lease := RenewIfValue(c.lease, id, c.now, LEASE_TTL).0)
    case StrayDel(id) => if MayDelete(c, id) then c.(lease := DelIfValue(c.lease, id, c.now).0) else c
    case _ => if s.id in c.nodes then NodeStep(c, s.id, c.nodes[s.id], s) else c
  }

  function NodeStep(c: Cluster, id: nat, n: Candidate, s: Step): Cluster {
    match (s, n.phase)
    case (StartTick(_), Idle) => Update(c, id, n.(phase := NxSent, began := c.now), c.lease)
    case (ServeNx(_), NxSent) =>
      var (key, granted) := SetNX(c.lease, id, c.now, LEASE_TTL);
      Update(c, id, n.(phase := NxServed(granted), lastGrant := if granted then c.now else n.lastGrant), key)
    case (Reply(_), NxServed(granted)) =>
      Update(c, id, if granted then n.EndTick(true, c.now) else n.(phase := RenewSent), c.lease)
    case (ServeRenew(_), RenewSent) =>
      var (key, renewed) := RenewIfValue(c.lease, id, c.now, LEASE_TTL);
      Update(c, id, n.(phase := RenewServed(renewed), lastGrant := if renewed then c.now else n.lastGrant), key)
    case (Reply(_), RenewServed(renewed)) => Update(c, id, n.EndTick(renewed, c.now), c.lease)
    case (Fail(_), NxSent) => Update(c, id, n.EndTick(false, c.now), c.lease)
    case (Fail(_), NxServed(_)) => Update(c, id, n.EndTick(false, c.now), c.lease)
    case (Fail(_), RenewSent) => Update(c, id, n.EndTick(false, c.now), c.lease)
    case (Fail(_), RenewServed(_)) => Update(c, id, n.EndTick(false, c.now), c.lease)
    case (StopNode(_), Idle) =>
      Update(c, id, n.(isLeader := false, phase := if n.isLeader then Releasing else Stopped), c.lease)
    case (ServeRelease(_), Releasing) => Update(c, id, n.(phase := Stopped), DelIfValue(c.lease, id, c.now).0)
    case (Fail(_), Releasing) => Update(c, id, n.(phase := Stopped), c.lease)
    case _ => c
  }

  function Steps(c: Cluster, steps: seq<Step>): Cluster
    decreases |steps|
  {
    if steps == [] then c else Steps(Next(c, steps[0]), steps[1..])
  }

  ghost predicate Start(c: Cluster) {
    && c.lease == Free
    && forall id <- c.nodes :: c.nodes[id] == Candidate(false, Idle, 0, 0, 0)
  }

  // ---------------------------------------------------------------------------------------
  // Safety
  // ---------------------------------------------------------------------------------------

  predicate Overdue(c: Cluster, id: nat)
    requires id in c.nodes
  {
    c.now >= c.nodes[id].lastGrant + LEASE_TTL
  }

  /** Whoever trusts its lease holds the unexpired key, or got its last grant at least a lease ago. */
  ghost predicate LeaseInv(c: Cluster) {
    forall id <- c.nodes :: Covered(c, id)
  }

  predicate Covered(c: Cluster, id: nat)
    requires id in c.nodes
  {
    && c.nodes[id].lastGrant <= c.now
    && (c.nodes[id].phase.Releasing? || c.nodes[id].phase.Stopped? ==> !c.nodes[id].isLeader)
    && (c.nodes[id].Trusts() ==>
          Overdue(c, id) || (c.lease.LiveFor(id, c.now) && c.lease.expiry >= c.nodes[id].lastGrant + LEASE_TTL))
  }

  lemma NextKeepsLease(c: Cluster, s: Step)
    requires LeaseInv(c)
    ensures LeaseInv(Next(c, s))
  {
    var c' := Next(c, s);
    forall id <- c'.nodes
      ensures Covered(c', id)
    {
      assert Covered(c, id);
    }
  }

  lemma {:induction false} StepsKeepLease(c: Cluster, steps: seq<Step>)
    requires LeaseInv(c)
    ensures LeaseInv(Steps(c, steps))
    decreases |steps|
  {
    if steps != [] {
      NextKeepsLease(c, steps[0]);
      StepsKeepLease(Next(c, steps[0]), steps[1..]);
    }
  }

  /** In every run, for any interleaving and with no assumption on time: if two instances read true
      together, one of them got its last grant at least a lease ago. */
  lemma LeaseSafety(c: Cluster, steps: seq<Step>)
    requires Start(c)
    ensures var end := Steps(c, steps);
      && (forall i <- end.nodes | end.nodes[i].ReadsTrue() :: Overdue(end, i) || end.lease.LiveFor(i, end.now))
      && (forall i <- end.nodes, j <- end.nodes | i != j && end.nodes[i].ReadsTrue() && end.nodes[j].ReadsTrue() ::
            Overdue(end, i) || Overdue(end, j))
  {
    StepsKeepLease(c, steps);
  }

  predicate OneLeader(c: Cluster) {
    forall i <- c.nodes, j <- c.nodes | c.nodes[i].ReadsTrue() && c.nodes[j].ReadsTrue() :: i == j
  }

  /** What the ticker of a running instance keeps to, if no tick takes more than `d`: the next tick begins a renew
      interval after the last one began, or, if that took longer, as soon as it has ended. */
  predicate Punctual(c: Cluster, d: nat) {
    forall id <- c.nodes ::
      var n := c.nodes[id];
      && (n.ReadsTrue() ==> c.now <= n.began + RENEW_INTERVAL || c.now <= n.ended)
      && (n.Ticking() ==> c.now <= n.began + d)
  }

  predicate AlwaysPunctual(c: Cluster, steps: seq<Step>, d: nat)
    decreases |steps|
  {
    Punctual(c, d) && (steps != [] ==> AlwaysPunctual(Next(c, steps[0]), steps[1..], d))
  }

  /** Whoever reads true got its last grant in its last tick, which took at most `d`. */
  ghost predicate GrantedInTick(c: Cluster, d: nat) {
    forall id <- c.nodes :: Granted(c, id, d)
  }

  predicate Granted(c: Cluster, id: nat, d: nat)
    requires id in c.nodes
  {
    var n := c.nodes[id];
    && n.began <= c.now
    && (n.ReadsTrue() ==> n.began <= n.lastGrant && n.ended <= n.began + d)
    && (n.phase == NxServed(true) || n.phase == RenewServed(true) ==> n.began <= n.lastGrant)
  }

  lemma NextKeepsGrants(c: Cluster, s: Step, d: nat)
    requires GrantedInTick(c, d) && Punctual(c, d)
    ensures GrantedInTick(Next(c, s), d)
  {
    hide SetNX, RenewIfValue, DelIfValue;
    var c' := Next(c, s);
    forall id <- c'.nodes
      ensures Granted(c', id, d)
    {
      assert Granted(c, id, d);
    }
  }

  lemma {:induction false} PunctualKeepsGrants(c: Cluster, steps: seq<Step>, d: nat, k: nat)
    requires GrantedInTick(c, d) && AlwaysPunctual(c, steps, d) && k <= |steps|
    ensures GrantedInTick(Steps(c, steps[..k]), d) && Punctual(Steps(c, steps[..k]), d)
    decreases |steps|
  {
    if k > 0 {
      NextKeepsGrants(c, steps[0], d);
      assert steps[..k][1..] == steps[1..][..k - 1];
      PunctualKeepsGrants(Next(c, steps[0]), steps[1..], d, k - 1);
    }
  }

  /** If every tick is shorter than the lease of 5000ms, then at every point of every run at most one instance
      reads true. */
  lemma AtMostOneLeader(c: Cluster, steps: seq<Step>, d: nat, k: nat)
    requires Start(c) && k <= |steps|
    requires AlwaysPunctual(c, steps, d) && d < 5000
    ensures OneLeader(Steps(c, steps[..k]))
    ensures forall i <- Steps(c, steps[..k]).nodes | Steps(c, steps[..k]).nodes[i].ReadsTrue() ::
              !Overdue(Steps(c, steps[..k]), i)
  {
    LeaseSafety(c, steps[..k]);
    PunctualKeepsGrants(c, steps, d, k);
  }

  lemma PunctualFirst(c: Cluster, s: Step, rest: seq<Step>, d: nat)
    requires Punctual(c, d) && AlwaysPunctual(Next(c, s), rest, d)
    ensures AlwaysPunctual(c, [s] + rest, d)
    ensures Steps(c, [s] + rest) == Steps(Next(c, s), rest)
  {
    assert ([s] + rest)[1..] == rest;
  }

  /** The first instance is granted the lease at once, but a whole lease passes before the reply arrives. */
  lemma SlowTick(c: Cluster, late: Cluster, rest: seq<Step>, d: nat) returns (steps: seq<Step>)
    requires d >= LEASE_TTL
    requires c == Cluster(0, Free, map[0 := Candidate(false, Idle, 0, 0, 0), 1 := Candidate(false, Idle, 0, 0, 0)])
    requires late == Cluster(
      LEASE_TTL, Held(0, LEASE_TTL),
      map[0 := Candidate(false, NxServed(true), 0, 0, 0), 1 := Candidate(false, Idle, 0, 0, 0)])
    requires AlwaysPunctual(late, rest, d)
    ensures AlwaysPunctual(c, steps, d) && Steps(c, steps) == Steps(late, rest)
  {
    var c1 := Next(c, StartTick(0));
    var c2 := Next(c1, ServeNx(0));
    assert Next(c2, Advance(LEASE_TTL)) == late;
    PunctualFirst(c2, Advance(LEASE_TTL), rest, d);
    steps := [Advance(LEASE_TTL)] + rest;
    PunctualFirst(c1, ServeNx(0), steps, d);
    steps := [ServeNx(0)] + steps;
    PunctualFirst(c, StartTick(0), steps, d);
    steps := [StartTick(0)] + steps;
  }

  /** Meanwhile the second one is granted it too, and then the first reply arrives. */
  lemma SecondTick(late: Cluster, d: nat) returns (steps: seq<Step>)
    requires d >= LEASE_TTL
    requires late == Cluster(
      LEASE_TTL, Held(0, LEASE_TTL),
      map[0 := Candidate(false, NxServed(true), 0, 0, 0), 1 := Candidate(false, Idle, 0, 0, 0)])
    ensures AlwaysPunctual(late, steps, d) && !OneLeader(Steps(late, steps))
  {
    var c1 := Next(late, StartTick(1));
    var c2 := Next(c1, ServeNx(1));
    var c3 := Next(c2, Reply(1));
    var c4 := Next(c3, Reply(0));
    assert c4.nodes[0].ReadsTrue() && c4.nodes[1].ReadsTrue();
    PunctualFirst(c3, Reply(0), [], d);
    steps := [Reply(0)] + [];
    PunctualFirst(c2, Reply(1), steps, d);
    steps := [Reply(1)] + steps;
    PunctualFirst(c1, ServeNx(1), steps, d);
    steps := [ServeNx(1)] + steps;
    PunctualFirst(late, StartTick(1), steps, d);
    steps := [StartTick(1)] + steps;
  }

  /** If a tick may take a whole lease, two instances can read true together, although every tick keeps to
      its time: the reply to the first comes late, when the second has been granted the lease. */
  lemma TwoLeadersWithoutTimeliness(d: nat) returns (c: Cluster, steps: seq<Step>)
    requires d >= 5000
    ensures Start(c) && AlwaysPunctual(c, steps, d)
    ensures !OneLeader(Steps(c, steps))
  {
    var idle := Candidate(false, Idle, 0, 0, 0);
    c := Cluster(0, Free, map[0 := idle, 1 := idle]);
    var late :=
      Cluster(LEASE_TTL, Held(0, LEASE_TTL), map[0 := Candidate(false, NxServed(true), 0, 0, 0), 1 := idle]);
    var rest := SecondTick(late, d);
    steps := SlowTick(c, late, rest, d);
  }

  /** So the bound is exact: runs whose ticks take at most `d` never have two leaders if and only if `d` is shorter
      than the lease: the renew interval is shorter than that, and an overrun tick is followed by the next at once. */
  lemma OneLeaderIffTicksFit(d: nat)
    ensures (forall c: Cluster, steps: seq<Step> | Start(c) && AlwaysPunctual(c, steps, d) ::
               OneLeader(Steps(c, steps)))
            <==> d < 5000
  {
    if d < 5000 {
      forall c: Cluster, steps: seq<Step> | Start(c) && AlwaysPunctual(c, steps, d)
        ensures OneLeader(Steps(c, steps))
      {
        AtMostOneLeader(c, steps, d, |steps|);
        assert steps[..|steps|] == steps;
      }
    } else {
      var c, steps := TwoLeadersWithoutTimeliness(d);
    }
  }

  // ---------------------------------------------------------------------------------------
  // A tick of the class is a run of these steps
  // ---------------------------------------------------------------------------------------

  function Interfere(others: seq<Other>): (r: seq<Step>)
    ensures |r| == |others|
  {
    seq(|others|, i requires 0 <= i < |others| =>
      match others[i]
      case Wait(ms) => Advance(ms)
      case OtherNx(id) => StrayNx(id)
      case OtherRenew(id) => StrayRenew(id)
      case OtherDel(id) => StrayDel(id))
  }

  function NxScript(id: nat, nx: Fault): seq<Step> {
    match nx
    case Lost => [Fail(id)]
    case Unacknowledged => [ServeNx(id), Fail(id)]
    case Delivered => [ServeNx(id), Reply(id)]
  }

  function RenewScript(id: nat, renew: Fault): seq<Step> {
    match renew
    case Lost => [Fail(id)]
    case Unacknowledged => [ServeRenew(id), Fail(id)]
    case Delivered => [ServeRenew(id), Reply(id)]
  }

  /** The steps of a tick whose SetNX is granted or refused. */
  function Script(id: nat, env: TickEnv, granted: bool): seq<Step> {
    [StartTick(id)] + NxScript(id, env.nx)
    + if env.nx.Delivered? && !granted then Interfere(env.others) + RenewScript(id, env.renew) else []
  }

  lemma {:induction false} StepsCompose(c: Cluster, a: seq<Step>, b: seq<Step>)
    ensures Steps(c, a + b) == Steps(Steps(c, a), b)
    decreases |a|
  {
    if a == [] {
      assert a + b == b;
    } else {
      assert (a + b)[1..] == a[1..] + b;
      StepsCompose(Next(c, a[0]), a[1..], b);
    }
  }

  lemma {:induction false} InterferenceIsMeanwhile(c: Cluster, others: seq<Other>)
    requires forall o <- others | o.OtherDel? :: MayDelete(c, o.id)
    ensures var (key, later) := Meanwhile(c.lease, c.now, LEASE_TTL, others);
      Steps(c, Interfere(others)) == c.(lease := key, now := later)
    decreases |others|
  {
    if others != [] {
      var steps := Interfere(others);
      assert steps[1..] == Interfere(others[1..]);
      assert others[0] in others;
      InterferenceIsMeanwhile(Next(c, steps[0]), others[1..]);
    }
  }

  lemma OneStep(c: Cluster, a: Step)
    ensures Steps(c, [a]) == Next(c, a)
  {
    assert Steps(Next(c, a), [a][1..]) == Next(c, a);
  }

  lemma TwoSteps(c: Cluster, a: Step, b: Step)
    ensures Steps(c, [a, b]) == Next(Next(c, a), b)
  {
    assert [a, b][1..] == [b];
    OneStep(Next(c, a), b);
  }

  /** The second half of a refused tick. */
  lemma RenewalRefinesSteps(c: Cluster, id: nat, others: seq<Other>, renew: Fault)
    requires id in c.nodes && c.nodes[id].phase == RenewSent
    requires forall o <- others | o.OtherDel? :: MayDelete(c, o.id)
    ensures var end := Steps(c, Interfere(others) + RenewScript(id, renew));
      var (othersKey, later) := Meanwhile(c.lease, c.now, LEASE_TTL, others);
      var (renewedKey, renewed) := RenewIfValue(othersKey, id, later, LEASE_TTL);
      && end.nodes.Keys == c.nodes.Keys
      && end.lease == (if renew.Lost? then othersKey else renewedKey)
      && end.nodes[id].isLeader == (renew.Delivered? && renewed)
      && end.nodes[id].phase == Idle
      && forall j <- c.nodes | j != id :: end.nodes[j] == c.nodes[j]
  {
    StepsCompose(c, Interfere(others), RenewScript(id, renew));
    InterferenceIsMeanwhile(c, others);
    var c' := Steps(c, Interfere(others));
    match renew {
      case Lost => OneStep(c', Fail(id));
      case Unacknowledged => TwoSteps(c', ServeRenew(id), Fail(id));
      case Delivered => TwoSteps(c', ServeRenew(id), Reply(id));
    }
  }

  /** So what holds of every run of steps holds of every schedule of TryAcquireOrRenew calls. */
  lemma TickRefinesSteps(c: Cluster, id: nat, env: TickEnv)
    requires id in c.nodes && c.nodes[id].phase == Idle && env.now == c.now
    requires forall o <- env.others | o.OtherDel? :: o.id != id && MayDelete(c, o.id)
    ensures var end := Steps(c, Script(id, env, SetNX(c.lease, id, c.now, LEASE_TTL).1));
      && end.nodes.Keys == c.nodes.Keys
      && (end.lease, end.nodes[id].isLeader) == Tick(c.lease, id, env)
      && end.nodes[id].phase == Idle
      && forall j <- c.nodes | j != id :: end.nodes[j] == c.nodes[j]
  {
    var granted := SetNX(c.lease, id, c.now, LEASE_TTL).1;
    var first := NxScript(id, env.nx);
    StepsCompose(c, [StartTick(id)] + first, Script(id, env, granted)[|first| + 1..]);
    StepsCompose(c, [StartTick(id)], first);
    OneStep(c, StartTick(id));
    var c1 := Next(c, StartTick(id));
    assert Script(id, env, granted) == [StartTick(id)] + first + Script(id, env, granted)[|first| + 1..];
    match env.nx {
      case Lost => OneStep(c1, Fail(id));
      case Unacknowledged => TwoSteps(c1, ServeNx(id), Fail(id));
      case Delivered => TwoSteps(c1, ServeNx(id), Reply(id));
    }
    if env.nx.Delivered? && !granted {
      var c3 := Steps(c1, first);
      RenewalRefinesSteps(c3, id, env.others, env.renew);
      assert Script(id, env, granted)[|first| + 1..] == Interfere(env.others) + RenewScript(id, env.renew);
    }
  }

  /** A Stop of the class is a run of these steps, too: the flag is cleared first, and the release, if it reaches Redis,
      deletes only the key that the instance still holds. */
  lemma StopRefinesSteps(c: Cluster, id: nat, f: Fault)
    requires id in c.nodes && c.nodes[id].phase == Idle
    ensures var end := Steps(c, [StopNode(id), if f.Lost? then Fail(id) else ServeRelease(id)]);
      && end.nodes == c.nodes[id := c.nodes[id].(isLeader := false, phase := Stopped)]
      && end.lease == StopStep(c.lease, c.nodes[id].isLeader, id, c.now, f)
      && (end.lease == if c.nodes[id].isLeader && !f.Lost? && c.lease.LiveFor(id, c.now) then Free else c.lease)
  {
    TwoSteps(c, StopNode(id), if f.Lost? then Fail(id) else ServeRelease(id));
  }

  /** The next second leader: while one instance reads true, an undisturbed tick of another one makes both read true
      if and only if the key has run out, or the second holds it already; and it has not as long as
      the first one's last grant is less than a lease ago. */
  lemma SecondLeaderIff(c: Cluster, i: nat, j: nat, env: TickEnv)
    requires i in c.nodes && j in c.nodes && i != j
    requires c.nodes[i].ReadsTrue() && c.nodes[j].phase.Idle?
    requires env == TickEnv(c.now, Delivered, [], Delivered)
    ensures var end := Steps(c, Script(j, env, SetNX(c.lease, j, c.now, LEASE_TTL).1));
      && end.nodes.Keys == c.nodes.Keys
      && (end.nodes[i].ReadsTrue() && end.nodes[j].ReadsTrue()
          <==> (c.lease.Live(c.now) ==> c.lease.owner == j))
      && (LeaseInv(c) && !Overdue(c, i) ==> !end.nodes[j].ReadsTrue())
  {
    TickRefinesSteps(c, j, env);
  }

  // ---------------------------------------------------------------------------------------
  // Failover
  // ---------------------------------------------------------------------------------------

  /** A tick for which Redis answers at once. */
  datatype Instant = Instant(time: nat, id: nat)

  function InstantTick(key: Lease, t: Instant): (Lease, bool) {
    Tick(key, t.id, TickEnv(t.time, Delivered, [], Delivered))
  }

  function After(key: Lease, ticks: seq<Instant>): Lease
    decreases |ticks|
  {
    if ticks == [] then key else After(InstantTick(key, ticks[0]).0, ticks[1..])
  }

  /** The ticks of the live instances: some tick at least every renew interval from `from` to `until`. */
  ghost predicate Cadence(ticks: seq<Instant>, from: nat, until: nat) {
    && |ticks| > 0
    && from <= ticks[0].time <= from + RENEW_INTERVAL
    && (forall k | 0 <= k < |ticks| - 1 :: ticks[k].time <= ticks[k + 1].time <= ticks[k].time + RENEW_INTERVAL)
    && ticks[|ticks| - 1].time >= until
  }

  /** Tick k leaves its instance holding the lease for 5000ms and believing so. */
  ghost predicate TakesOver(key: Lease, ticks: seq<Instant>, k: nat)
    requires k < |ticks|
  {
    var (key', believes) := InstantTick(After(key, ticks[..k]), ticks[k]);
    believes && key' == Held(ticks[k].id, ticks[k].time + 5000)
  }

  lemma {:induction false} Failover(key: Lease, ticks: seq<Instant>, from: nat, until: nat) returns (k: nat)
    requires Cadence(ticks, from, until)
    requires key.Free? || key.expiry <= until
    requires from <= until
    requires key.Held? ==> forall t <- ticks :: t.id != key.owner
    ensures k < |ticks| && TakesOver(key, ticks, k) && ticks[k].time <= until + RENEW_INTERVAL
    ensures key.Free? ==> k == 0
    decreases |ticks|
  {
    if !key.Live(ticks[0].time) {
      k := 0;
      assert ticks[..0] == [];
    } else {
      assert ticks[0] in ticks;
      assert InstantTick(key, ticks[0]).0 == key;
      forall t <- ticks[1..] ensures t.id != key.owner {
        assert t in ticks;
      }
      var later := Failover(key, ticks[1..], ticks[0].time, until);
      k := later + 1;
      assert ticks[1..][..later] == ticks[..k][1..];
      assert ticks[..k][0] == ticks[0];
    }
  }

  /** If the holder stops renewing after its grant at `granted` and some live instance ticks every renew
      interval, a live instance holds the lease and believes it within 7000ms, a lease and a renew interval. */
  lemma BoundedFailover(key: Lease, owner: nat, granted: nat, ticks: seq<Instant>)
    requires InstantTick(key, Instant(granted, owner)).1
    requires |ticks| > 0 && granted <= ticks[0].time <= granted + 2000
    requires forall k | 0 <= k < |ticks| - 1 :: ticks[k].time <= ticks[k + 1].time <= ticks[k].time + 2000
    requires ticks[|ticks| - 1].time >= granted + 5000
    requires forall t <- ticks :: t.id != owner
    ensures exists k: nat | k < |ticks| ::
              && TakesOver(InstantTick(key, Instant(granted, owner)).0, ticks, k)
              && ticks[k].time <= granted + 7000
  {
    var k := Failover(Held(owner, granted + LEASE_TTL), ticks, granted, granted + LEASE_TTL);
  }

  /** After a Stop whose release reached Redis, within 2000ms, a renew interval. */
  lemma FailoverAfterRelease(key: Lease, owner: nat, stopped: nat, ticks: seq<Instant>)
    requires key.LiveFor(owner, stopped)
    requires |ticks| > 0 && stopped <= ticks[0].time <= stopped + 2000
    requires forall k | 0 <= k < |ticks| - 1 :: ticks[k].time <= ticks[k + 1].time <= ticks[k].time + 2000
    requires ticks[|ticks| - 1].time >= stopped
    ensures var released := DelIfValue(key, owner, stopped).0;
      TakesOver(released, ticks, 0) && ticks[0].time <= stopped + 2000
  {
    var k := Failover(Free, ticks, stopped, stopped);
  }
}
