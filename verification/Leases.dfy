/**
 Exclusive, self-renewing leases and first-writer claims of a worker pool
 (workers/asm_sensors/coordination.py).
 */
module Leases {
  import opened Prelude

  type Time = int
  type Token = nat

  datatype Lease = Lease(token: Token, expires: Time)

  type Held = map<string, Lease>
  type Claims = map<string, Time>

  predicate HeldBy(leases: Held, name: string, token: Token) {
    name in leases && leases[name].token == token
  }

  /** Someone's lease has not run out. */
  predicate Taken(leases: Held, name: string, now: Time) {
    name in leases && leases[name].expires > now
  }

  function Acquire(leases: Held, name: string, token: Token, ttl: int, now: Time): Held {
    if Taken(leases, name, now) then leases else leases[name := Lease(token, now + ttl)]
  }

  /** Only the token is compared: an expired lease nobody took is still renewed. */
  function Renew(leases: Held, name: string, token: Token, ttl: int, now: Time): Held {
    if HeldBy(leases, name, token) then leases[name := Lease(token, now + ttl)] else leases
  }

  function Release(leases: Held, name: string, token: Token): Held {
    if HeldBy(leases, name, token) then leases - {name} else leases
  }

  predicate Claimable(claims: Claims, key: string, now: Time) {
    !(key in claims && claims[key] > now)
  }

  function Claim(claims: Claims, key: string, ttl: int, now: Time): Claims {
    if Claimable(claims, key, now) then claims[key := now + ttl] else claims
  }

  /** The in-process coordinator; each method runs under its lock. */
  class LocalCoordinator {
    var leases: Held
    var claims: Claims

    constructor ()
      ensures leases == map[] && claims == map[]
    {
      leases, claims := map[], map[];
    }

    method TryClaim(key: string, ttl: int, now: Time) returns (first: bool)
      requires 0 <= now
      modifies `claims
      ensures first <==> Claimable(old(claims), key, now)
      ensures claims == Claim(old(claims), key, ttl, now)
    {
      var until := if key in claims then claims[key] else 0;
      if until > now {
        return false;
      }
      claims := claims[key := now + ttl];
      return true;
    }

    method TryAcquire(name: string, token: Token, ttl: int, now: Time) returns (ok: bool)
      modifies `leases
      ensures ok <==> !Taken(old(leases), name, now)
      ensures leases == Acquire(old(leases), name, token, ttl, now)
    {
      if name in leases && leases[name].expires > now {
        return false;
      }
      leases := leases[name := Lease(token, now + ttl)];
      return true;
    }

    method TryRenew(name: string, token: Token, ttl: int, now: Time) returns (held: bool)
      modifies `leases
      ensures held <==> HeldBy(old(leases), name, token)
      ensures leases == Renew(old(leases), name, token, ttl, now)
    {
      if name !in leases || leases[name].token != token {
        return false;
      }
      leases := leases[name := Lease(token, now + ttl)];
      return true;
    }

    method GiveUp(name: string, token: Token)
      modifies `leases
      ensures leases == Release(old(leases), name, token)
    {
      if name in leases && leases[name].token == token {
        leases := leases - {name};
      }
    }
  }

  // ------------------------------------------------------ one call at a time

  /** Only this name's lease may differ. */
  ghost predicate SameOthers(leases: Held, after: Held, name: string) {
    forall n :: n != name ==> (n in after <==> n in leases) && (n in leases ==> after[n] == leases[n])
  }

  /** A successful attempt, or a renewal by the holder, holds the name for the token exactly until the time to live is over. */
  lemma GrantHolds(leases: Held, name: string, token: Token, ttl: int, now: Time, at: Time)
    ensures var after := Acquire(leases, name, token, ttl, now);
            if Taken(leases, name, now) then after == leases
            else HeldBy(after, name, token) && (Taken(after, name, at) <==> at < now + ttl) && SameOthers(leases, after, name)
    ensures var after := Renew(leases, name, token, ttl, now);
            if HeldBy(leases, name, token) then HeldBy(after, name, token) && (Taken(after, name, at) <==> at < now + ttl) && SameOthers(leases, after, name)
            else after == leases
  {
  }

  /** The holder's release frees the name at once, whatever its expiry; anyone else's does nothing. */
  lemma ReleaseFrees(leases: Held, name: string, token: Token, at: Time)
    ensures var after := Release(leases, name, token);
            if HeldBy(leases, name, token) then !Taken(after, name, at) && SameOthers(leases, after, name) else after == leases
  {
  }

  // ------------------------------------------------------------------ claims

  /** A claim that is granted can be claimed again exactly once its time to live is over; one that is not changes nothing. */
  lemma ClaimHolds(claims: Claims, key: string, ttl: int, now: Time, other: string, at: Time)
    ensures var after := Claim(claims, key, ttl, now);
            && (Claimable(claims, key, now) ==> (Claimable(after, key, at) <==> at >= now + ttl))
            && (!Claimable(claims, key, now) ==> after == claims)
            && (other != key ==> (Claimable(after, other, at) <==> Claimable(claims, other, at)))
  {
  }

  datatype Attempt = Attempt(key: string, ttl: int, at: Time)

  function AfterAttempts(claims: Claims, attempts: seq<Attempt>): Claims
    decreases |attempts|
  {
    if attempts == [] then claims
    else AfterAttempts(Claim(claims, attempts[0].key, attempts[0].ttl, attempts[0].at), attempts[1..])
  }

  /** Once claimed, a key stays claimed for its whole time to live, whatever else is attempted meanwhile. */
  lemma {:induction false} FirstWriterWins(claims: Claims, key: string, ttl: int, at: Time, attempts: seq<Attempt>, now: Time)
    requires Claimable(claims, key, at)
    requires forall n :: 0 <= n < |attempts| ==> attempts[n].at < at + ttl
    requires now < at + ttl
    ensures !Claimable(AfterAttempts(Claim(claims, key, ttl, at), attempts), key, now)
  {
    ClaimStands(Claim(claims, key, ttl, at), key, at + ttl, attempts);
  }

  lemma {:induction false} ClaimStands(claims: Claims, key: string, until: Time, attempts: seq<Attempt>)
    requires key in claims && claims[key] == until
    requires forall n :: 0 <= n < |attempts| ==> attempts[n].at < until
    ensures key in AfterAttempts(claims, attempts) && AfterAttempts(claims, attempts)[key] == until
    decreases |attempts|
  {
    if attempts != [] {
      assert attempts[0].at < until;
      ClaimStands(Claim(claims, attempts[0].key, attempts[0].ttl, attempts[0].at), key, until, attempts[1..]);
    }
  }

  // ------------------------------------------------------------ holders' runs

  /** Where a caller of the lease is: waiting for it, in the body, told that it was lost, or finished. */
  datatype Phase = Waiting | Body | Lost | Done

  datatype Holder = Holder(name: string, ttl: int, phase: Phase)

  datatype State = State(now: Time, leases: Held, holders: seq<Holder>)

  datatype Step =
    | Tick(to: Time)
    | Begin(name: string, ttl: int)
    | Attempts(token: Token)
    | GivesUpWaiting(token: Token)
    | Renews(token: Token, reached: bool)
    | Finishes(token: Token)
    | Crashes(token: Token)

  predicate InPhase(s: State, t: Token, p: Phase) {
    t < |s.holders| && s.holders[t].phase == p
  }

  predicate Enabled(s: State, step: Step) {
    match step
    case Tick(to) => s.now <= to
    case Begin(_, ttl) => 0 < ttl
    case Attempts(t) => InPhase(s, t, Waiting)
    case GivesUpWaiting(t) => InPhase(s, t, Waiting)
    case Renews(t, _) => InPhase(s, t, Body)
    case Finishes(t) => InPhase(s, t, Body)
    case Crashes(t) => InPhase(s, t, Body)
  }

  function Enter(s: State, t: Token, p: Phase): State
    requires t < |s.holders|
  {
    s.(holders := s.holders[t := s.holders[t].(phase := p)])
  }

  /** Tokens are fresh: each caller's token is its place in the list of callers. */
  function Apply(s: State, step: Step): State
    requires Enabled(s, step)
  {
    match step
    case Tick(to) => s.(now := to)
    case Begin(name, ttl) => s.(holders := s.holders + [Holder(name, ttl, Waiting)])
    case Attempts(t) =>
      var h := s.holders[t];
      if Taken(s.leases, h.name, s.now) then s
      else Enter(s, t, Body).(leases := Acquire(s.leases, h.name, t, h.ttl, s.now))
    case GivesUpWaiting(t) => Enter(s, t, Done)
    case Renews(t, reached) =>
      var h := s.holders[t];
      if reached && HeldBy(s.leases, h.name, t) then s.(leases := Renew(s.leases, h.name, t, h.ttl, s.now))
      else Enter(s, t, Lost)
    case Finishes(t) => Enter(s, t, Done).(leases := Release(s.leases, s.holders[t].name, t))
    case Crashes(t) => Enter(s, t, Done)
  }

  /** Time never reaches the expiry of a lease whose body is running. */
  ghost predicate Timely(s: State, step: Step) {
    step.Tick? ==>
      forall t: Token :: InPhase(s, t, Body) && HeldBy(s.leases, s.holders[t].name, t) ==> step.to < s.leases[s.holders[t].name].expires
  }

  predicate IsRun(s: State, steps: seq<Step>)
    decreases |steps|
  {
    steps == [] || (Enabled(s, steps[0]) && IsRun(Apply(s, steps[0]), steps[1..]))
  }

  function After(s: State, steps: seq<Step>): State
    requires IsRun(s, steps)
    decreases |steps|
  {
    if steps == [] then s else After(Apply(s, steps[0]), steps[1..])
  }

  ghost predicate TimelyRun(s: State, steps: seq<Step>)
    requires IsRun(s, steps)
    decreases |steps|
  {
    steps == [] || (Timely(s, steps[0]) && TimelyRun(Apply(s, steps[0]), steps[1..]))
  }

  const START := State(0, map[], [])

  /** Every running body has a lease that has not run out. */
  ghost predicate Covered(s: State) {
    && (forall t: Token :: InPhase(s, t, Body) ==> HeldBy(s.leases, s.holders[t].name, t) && Taken(s.leases, s.holders[t].name, s.now))
    && (forall t: Token :: t < |s.holders| ==> s.holders[t].ttl > 0)
  }

  lemma StepCovered(s: State, step: Step)
    requires Covered(s) && Enabled(s, step) && Timely(s, step)
    ensures Covered(Apply(s, step))
  {
    var s' := Apply(s, step);
    forall t: Token | InPhase(s', t, Body)
      ensures HeldBy(s'.leases, s'.holders[t].name, t) && Taken(s'.leases, s'.holders[t].name, s'.now)
    {
      assert step.Begin? ==> t < |s.holders|;
      assert InPhase(s, t, Body) || step == Attempts(t);
    }
  }

  lemma {:induction false} RunCovered(s: State, steps: seq<Step>)
    requires Covered(s) && IsRun(s, steps) && TimelyRun(s, steps)
    ensures Covered(After(s, steps))
    decreases |steps|
  {
    if steps != [] {
      StepCovered(s, steps[0]);
      RunCovered(Apply(s, steps[0]), steps[1..]);
    }
  }

  /** If renewals always come in time, no two bodies of the same lease ever run at once. */
  lemma MutualExclusion(steps: seq<Step>, one: Token, two: Token)
    requires IsRun(START, steps) && TimelyRun(START, steps)
    requires InPhase(After(START, steps), one, Body) && InPhase(After(START, steps), two, Body)
    requires After(START, steps).holders[one].name == After(START, steps).holders[two].name
    ensures one == two
  {
    RunCovered(START, steps);
  }

  // --------------------------------------------------- what a renewal is for

  /** When each caller's lease was last granted or renewed. */
  type Grants = map<Token, Time>

  function Granted(s: State, step: Step, grants: Grants): Grants {
    match step
    case Attempts(t) => grants[t := s.now]
    case Renews(t, true) => grants[t := s.now]
    case _ => grants
  }

  /** Every running body was granted or renewed its lease less than its time to live ago, and goes on so. */
  ghost predicate PromptRun(s: State, steps: seq<Step>, grants: Grants)
    requires IsRun(s, steps)
    decreases |steps|
  {
    steps == [] ||
    (&& (steps[0].Tick? ==> forall t: Token :: InPhase(s, t, Body) ==> t in grants && steps[0].to < grants[t] + s.holders[t].ttl)
     && PromptRun(Apply(s, steps[0]), steps[1..], Granted(s, steps[0], grants)))
  }

  /** Every running body's lease expires its time to live after the last grant. */
  ghost predicate Exact(s: State, grants: Grants) {
    forall t: Token :: InPhase(s, t, Body) ==>
      t in grants && HeldBy(s.leases, s.holders[t].name, t) && s.leases[s.holders[t].name].expires == grants[t] + s.holders[t].ttl
  }

  lemma StepExact(s: State, step: Step, grants: Grants)
    requires Covered(s) && Exact(s, grants) && Enabled(s, step)
    ensures Exact(Apply(s, step), Granted(s, step, grants))
  {
    var s' := Apply(s, step);
    forall t: Token | InPhase(s', t, Body)
      ensures t in Granted(s, step, grants) && HeldBy(s'.leases, s'.holders[t].name, t)
      ensures s'.leases[s'.holders[t].name].expires == Granted(s, step, grants)[t] + s'.holders[t].ttl
    {
      assert step.Begin? ==> t < |s.holders|;
      assert InPhase(s, t, Body) || step == Attempts(t);
    }
  }

  lemma {:induction false} PromptIsTimely(s: State, steps: seq<Step>, grants: Grants)
    requires Covered(s) && Exact(s, grants) && IsRun(s, steps) && PromptRun(s, steps, grants)
    ensures TimelyRun(s, steps)
    decreases |steps|
  {
    if steps != [] {
      StepCovered(s, steps[0]);
      StepExact(s, steps[0], grants);
      PromptIsTimely(Apply(s, steps[0]), steps[1..], Granted(s, steps[0], grants));
    }
  }

  /** Callers that renew less than their time to live after the last grant never overlap: that is all they have to do. */
  lemma RenewingExcludes(steps: seq<Step>, one: Token, two: Token)
    requires IsRun(START, steps) && PromptRun(START, steps, map[])
    requires InPhase(After(START, steps), one, Body) && InPhase(After(START, steps), two, Body)
    requires After(START, steps).holders[one].name == After(START, steps).holders[two].name
    ensures one == two
  {
    PromptIsTimely(START, steps, map[]);
    MutualExclusion(steps, one, two);
  }

  /** The caller holds its name at least until then, and a renewal would not shorten that. */
  predicate HoldsUntil(s: State, t: Token, until: Time) {
    && t < |s.holders| && HeldBy(s.leases, s.holders[t].name, t)
    && s.leases[s.holders[t].name].expires >= until && s.now + s.holders[t].ttl >= until
  }

  lemma StepHolds(s: State, step: Step, t: Token, until: Time)
    requires HoldsUntil(s, t, until) && Enabled(s, step) && s.now < until && step != Finishes(t)
    ensures HoldsUntil(Apply(s, step), t, until) && Apply(s, step).holders[t].name == s.holders[t].name
  {
  }

  lemma {:induction false} StandsUntil(s: State, steps: seq<Step>, t: Token, until: Time)
    requires HoldsUntil(s, t, until) && IsRun(s, steps) && Finishes(t) !in steps && After(s, steps).now < until
    ensures HoldsUntil(After(s, steps), t, until) && After(s, steps).holders[t].name == s.holders[t].name
    decreases |steps|
  {
    if steps != [] {
      TimeGoesOn(s, steps);
      StepHolds(s, steps[0], t, until);
      assert Finishes(t) !in steps[1..];
      StandsUntil(Apply(s, steps[0]), steps[1..], t, until);
    }
  }

  lemma {:induction false} TimeGoesOn(s: State, steps: seq<Step>)
    requires IsRun(s, steps)
    ensures s.now <= After(s, steps).now
    decreases |steps|
  {
    if steps != [] {
      TimeGoesOn(Apply(s, steps[0]), steps[1..]);
    }
  }

  /**
   Once a caller was granted its lease, or renewed it, nobody else's attempt succeeds before the time to live is over,
   whatever anybody does, unless the caller finishes itself.
   */
  lemma GrantStands(s: State, step: Step, steps: seq<Step>, t: Token, other: Token)
    requires step == Attempts(t) || step == Renews(t, true)
    requires Enabled(s, step) && InPhase(Apply(s, step), t, Body) && (step.Attempts? || HeldBy(s.leases, s.holders[t].name, t))
    requires IsRun(Apply(s, step), steps) && Finishes(t) !in steps && After(Apply(s, step), steps).now < s.now + s.holders[t].ttl
    ensures var u := After(Apply(s, step), steps);
            && HeldBy(u.leases, s.holders[t].name, t) && Taken(u.leases, s.holders[t].name, u.now)
            && (InPhase(u, other, Waiting) && u.holders[other].name == s.holders[t].name ==> Apply(u, Attempts(other)) == u)
  {
    StandsUntil(Apply(s, step), steps, t, s.now + s.holders[t].ttl);
  }

  // --------------------------------------------------------------- late ones

  /** Timing is needed: a body that outlives its lease runs beside the next holder's. */
  lemma LateRenewalOverlaps(name: string, ttl: int)
    requires 0 < ttl
    ensures exists steps :: IsRun(START, steps) && !TimelyRun(START, steps) && |After(START, steps).holders| == 2
              && InPhase(After(START, steps), 0, Body) && InPhase(After(START, steps), 1, Body)
              && After(START, steps).holders[0].name == After(START, steps).holders[1].name == name
  {
    var s1 := Apply(START, Begin(name, ttl));
    var s2 := Apply(s1, Begin(name, ttl));
    var s3 := Apply(s2, Attempts(0));
    var s4 := Apply(s3, Tick(ttl));
    var s5 := Apply(s4, Attempts(1));
    assert InPhase(s3, 0, Body) && HeldBy(s3.leases, s3.holders[0].name, 0);
    assert !Timely(s3, Tick(ttl));
    Chain(s4, [Attempts(1)]);
    Chain(s3, [Tick(ttl), Attempts(1)]);
    Chain(s2, [Attempts(0), Tick(ttl), Attempts(1)]);
    Chain(s1, [Begin(name, ttl), Attempts(0), Tick(ttl), Attempts(1)]);
    Chain(START, [Begin(name, ttl), Begin(name, ttl), Attempts(0), Tick(ttl), Attempts(1)]);
    assert After(s5, []) == s5;
  }

  lemma Chain(s: State, steps: seq<Step>)
    requires steps != [] && Enabled(s, steps[0]) && IsRun(Apply(s, steps[0]), steps[1..])
    ensures IsRun(s, steps) && After(s, steps) == After(Apply(s, steps[0]), steps[1..])
    ensures TimelyRun(s, steps) <==> Timely(s, steps[0]) && TimelyRun(Apply(s, steps[0]), steps[1..])
  {
  }

  // ----------------------------------------------------- without any timing

  /** The lease is out of the token's reach for good. */
  predicate OutOfReach(s: State, t: Token) {
    t < |s.holders| && !s.holders[t].phase.Waiting? && !HeldBy(s.leases, s.holders[t].name, t)
  }

  lemma StepOutOfReach(s: State, step: Step, t: Token)
    requires OutOfReach(s, t) && Enabled(s, step)
    ensures OutOfReach(Apply(s, step), t)
    ensures Apply(s, step).holders[t].name == s.holders[t].name
    ensures step == Renews(t, true) || step == Renews(t, false) ==> InPhase(Apply(s, step), t, Lost) && Apply(s, step).leases == s.leases
    ensures step == Finishes(t) ==> Apply(s, step).leases == s.leases
  {
  }

  /**
   With no timing assumption: a holder whose lease was taken over never gets it back, its next renewal
   tells it so, and neither that nor its release touches the new holder's lease.
   */
  lemma {:induction false} TakenOverForGood(s: State, steps: seq<Step>, t: Token, last: Step)
    requires OutOfReach(s, t) && IsRun(s, steps) && Enabled(After(s, steps), last)
    ensures OutOfReach(After(s, steps), t)
    ensures last.Renews? && last.token == t ==>
              InPhase(Apply(After(s, steps), last), t, Lost) && Apply(After(s, steps), last).leases == After(s, steps).leases
    ensures last == Finishes(t) ==> Apply(After(s, steps), last).leases == After(s, steps).leases
    decreases |steps|
  {
    if steps == [] {
      StepOutOfReach(s, last, t);
    } else {
      StepOutOfReach(s, steps[0], t);
      TakenOverForGood(Apply(s, steps[0]), steps[1..], t, last);
    }
  }

  /** Nobody's lease is removed or replaced by another token while it has not run out. */
  lemma NobodyElsesLease(s: State, step: Step, name: string)
    requires Enabled(s, step) && Taken(s.leases, name, s.now)
    requires name !in Apply(s, step).leases || Apply(s, step).leases[name] != s.leases[name]
    ensures var owner := s.leases[name].token;
            step == Renews(owner, true) || step == Finishes(owner)
  {
  }
}
