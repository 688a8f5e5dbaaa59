/** No orphaned bucket: what every run of the bucket protocol keeps. */
module BucketSafety {
  import opened Options
  import opened BucketDomain
  import opened BucketProtocol

  /** The one place a claim of this spec belongs to, while its cluster is engaged. */
  function Home(s: State, spec: Spec): Option<Place> {
    if !spec.valid || spec.tenant == "" then None
    else
      match Resolve(s.profiles, spec.region)
      case None => None
      case Some(cluster) => if cluster in s.engaged then Some(Place(cluster, spec.tenant)) else None
  }

  /** Home in plain terms. */
  lemma HomeMeans(s: State, spec: Spec)
    ensures forall p :: Home(s, spec) == Some(p) <==>
              && spec.valid && spec.tenant != "" && p.tenant == spec.tenant
              && p.cluster in s.engaged && Offers(s.profiles, spec.region, p.cluster)
  {
    ResolveMeans(s.profiles, spec.region);
  }

  predicate Held(s: State, spec: Spec) {
    s.hub.Some? && s.hub.value.finalizer && s.hub.value.spec == spec && spec.valid && spec.tenant != ""
  }

  predicate Marked(s: State) { s.hub.Some? && s.hub.value.marked }

  /** A claim of ours means the request is there, holds the finalizer and is placed where the claim is. */
  predicate ClaimOk(s: State, p: Place, claim: SpokeClaim) {
    claim.ours ==> s.hub.Some? && Held(s, s.hub.value.spec) && Home(s, s.hub.value.spec) == Some(p)
  }

  predicate NoClaim(s: State) { forall p :: p in s.claims ==> !s.claims[p].ours }

  predicate PcOk(s: State, pc: Pc) {
    match pc
    case AddFinalizer(spec) => spec.valid && spec.tenant != "" && (s.hub.Some? ==> s.hub.value.spec == spec)
    case ListProfiles(spec, _) => Held(s, spec)
    case GetCluster(spec, _, cluster) => Held(s, spec) && Resolve(s.profiles, spec.region) == Some(cluster)
    case GetClaim(spec, _, cluster) => Held(s, spec) && Home(s, spec) == Some(Place(cluster, spec.tenant))
    case CreateClaim(spec, _, cluster) => Held(s, spec) && Home(s, spec) == Some(Place(cluster, spec.tenant))
    case ReadClaim(spec, _, cluster) => Held(s, spec) && Home(s, spec) == Some(Place(cluster, spec.tenant))
    case ReadConfig(spec, _, cluster) => Held(s, spec) && Home(s, spec) == Some(Place(cluster, spec.tenant))
    case PatchStatus(_) => true
    case FinProfiles(spec) => Held(s, spec) && Marked(s)
    case FinCluster(spec, cluster) => Held(s, spec) && Marked(s) && Resolve(s.profiles, spec.region) == Some(cluster)
    case DeleteClaim(spec, cluster) => Held(s, spec) && Marked(s) && Home(s, spec) == Some(Place(cluster, spec.tenant))
    case CheckGone(spec, cluster) => Held(s, spec) && Marked(s) && Home(s, spec) == Some(Place(cluster, spec.tenant))
    case Release => Marked(s) && NoClaim(s)
  }

  predicate Inv(s: State) {
    && (Marked(s) ==> s.hub.value.finalizer)
    && (forall p :: p in s.claims ==> ClaimOk(s, p, s.claims[p]))
    && (s.worker.Some? ==> PcOk(s, s.worker.value))
  }

  // ---------- Preservation ----------

  /** Nothing of a request that has no home is on any spoke. */
  lemma HomelessHasNoClaim(s: State)
    requires Inv(s) && s.hub.Some? && Home(s, s.hub.value.spec) == None
    ensures NoClaim(s)
  {
    forall p | p in s.claims ensures !s.claims[p].ours { assert ClaimOk(s, p, s.claims[p]); }
  }

  lemma BeginKeeps(s: State)
    requires Inv(s) && s.worker.None?
    ensures Inv(ActStep(s, Begin))
  {
    var t := ActStep(s, Begin);
    if t.worker == Some(Release) { HomelessHasNoClaim(s); }
    forall p | p in t.claims ensures ClaimOk(t, p, t.claims[p]) { assert ClaimOk(s, p, s.claims[p]); }
  }

  /** The claims once the call at pc is carried out. */
  lemma EffectKeepsClaims(s: State, pc: Pc)
    requires Inv(s) && s.worker == Some(pc) && Accepts(s, pc)
    ensures var t := Effect(s, pc); forall p :: p in t.claims ==> ClaimOk(t, p, t.claims[p])
  {
    var t := Effect(s, pc);
    forall p | p in t.claims ensures ClaimOk(t, p, t.claims[p]) {
      if p in s.claims { assert ClaimOk(s, p, s.claims[p]); }
    }
  }

  lemma CheckGoneNext(s: State, spec: Spec, cluster: string)
    requires Inv(s) && s.worker == Some(CheckGone(spec, cluster)) && Place(cluster, spec.tenant) !in s.claims
    ensures NoClaim(s)
  {
    forall p | p in s.claims ensures !s.claims[p].ours { assert ClaimOk(s, p, s.claims[p]); }
  }

  lemma NextOk(s: State, pc: Pc)
    requires Inv(s) && s.worker == Some(pc) && Accepts(s, pc)
    ensures var t := Effect(s, pc); Next(t, pc).Some? ==> PcOk(t, Next(t, pc).value)
  {
    match pc {
      case FinProfiles(spec) => if Resolve(s.profiles, spec.region).None? { HomelessHasNoClaim(s); }
      case FinCluster(spec, cluster) => if cluster !in s.engaged { HomelessHasNoClaim(s); }
      case CheckGone(spec, cluster) => if Place(cluster, spec.tenant) !in s.claims { CheckGoneNext(s, spec, cluster); }
      case _ =>
    }
  }

  lemma PcOkApart(s: State, t: State, pc: Pc)
    requires PcOk(s, pc) && t == s.(worker := t.worker, passes := t.passes)
    ensures PcOk(t, pc)
  {
  }

  lemma CallKeeps(s: State, reply: Reply)
    requires Inv(s) && s.worker.Some?
    ensures Inv(CallStep(s, reply))
  {
    var pc, t := s.worker.value, CallStep(s, reply);
    if reply == Failed || !Accepts(s, pc) {
      forall p | p in t.claims ensures ClaimOk(t, p, t.claims[p]) { assert ClaimOk(s, p, s.claims[p]); }
    } else {
      var after := Effect(s, pc);
      EffectKeepsClaims(s, pc);
      forall p | p in t.claims ensures ClaimOk(t, p, t.claims[p]) { assert ClaimOk(after, p, after.claims[p]); }
      if reply == Ok {
        NextOk(s, pc);
        if t.worker.Some? { PcOkApart(after, t, t.worker.value); }
      }
    }
  }

  lemma StatusKeeps(s: State, p: nat, act: StatusAct)
    requires Inv(s) && StatusEnabled(s, p, act)
    ensures Inv(StatusStep(s, p, act))
  {
    var t := StatusStep(s, p, act);
    assert t == s.(hub := t.hub, passes := t.passes);
    assert t.hub.Some? == s.hub.Some? && (s.hub.Some? ==> t.hub.value == s.hub.value.(status := t.hub.value.status));
    forall q | q in t.claims ensures ClaimOk(t, q, t.claims[q]) { assert ClaimOk(s, q, s.claims[q]); }
  }

  lemma HubChangeKeeps(s: State, c: Change)
    requires Inv(s) && ChangeEnabled(s, c) && SteadyChange(s, c) && (c.UserCreate? || c.UserEdit? || c.UserDelete?)
    ensures Inv(ChangeStep(s, c))
  {
    var t := ChangeStep(s, c);
    forall p | p in t.claims ensures ClaimOk(t, p, t.claims[p]) {
      assert ClaimOk(s, p, s.claims[p]);
      assert s.claims[p].ours ==> InUse(s);
    }
  }

  lemma SpokeChangeKeeps(s: State, c: Change)
    requires Inv(s) && ChangeEnabled(s, c) && SteadyChange(s, c) && !c.UserCreate? && !c.UserEdit? && !c.UserDelete?
    ensures Inv(ChangeStep(s, c))
  {
    var t := ChangeStep(s, c);
    forall p | p in t.claims ensures ClaimOk(t, p, t.claims[p]) {
      if p in s.claims {
        assert ClaimOk(s, p, s.claims[p]);
        assert s.claims[p].ours ==> InUse(s);
      }
    }
  }

  lemma StepKeeps(s: State, e: Event)
    requires Inv(s) && Enabled(s, e) && Steady(s, e)
    ensures Inv(Step(s, e))
  {
    match e {
      case Worker(Begin) => BeginKeeps(s);
      case Worker(Call(reply)) => CallKeeps(s, reply);
      case Worker(Crash) =>
        forall p | p in s.claims ensures ClaimOk(ActStep(s, Crash), p, s.claims[p]) {
          assert ClaimOk(s, p, s.claims[p]);
        }
      case Pass(p, act) => StatusKeeps(s, p, act);
      case Env(c) =>
        if c.UserCreate? || c.UserEdit? || c.UserDelete? { HubChangeKeeps(s, c); } else { SpokeChangeKeeps(s, c); }
    }
  }

  lemma {:induction false} SteadyRunKeeps(s: State, es: seq<Event>)
    requires Inv(s) && SteadyRun(s, es)
    ensures Possible(s, es) && Inv(Run(s, es))
    decreases |es|
  {
    if es != [] {
      StepKeeps(s, es[0]);
      SteadyRunKeeps(Step(s, es[0]), es[1..]);
    }
  }

  // ---------- The promise ----------

  /** In every interleaving, with any call failing and any crash: while the
      request is off the hub, or no longer held by the finalizer, none of its
      claims is on any spoke, not even one on its way out. */
  lemma NoOrphanedBucket(start: State, es: seq<Event>)
    requires Initial(start) && SteadyRun(start, es)
    ensures Possible(start, es)
    ensures var s := Run(start, es);
            s.hub.None? || !s.hub.value.finalizer ==> forall p :: p in s.claims ==> !s.claims[p].ours
  {
    SteadyRunKeeps(start, es);
    var s := Run(start, es);
    if s.hub.None? || !s.hub.value.finalizer {
      forall p | p in s.claims ensures !s.claims[p].ours { assert ClaimOk(s, p, s.claims[p]); }
    }
  }

  /** There is at most one claim of the request, and it is where a new pass would look for it. */
  lemma ClaimIsHome(start: State, es: seq<Event>, p: Place)
    requires Initial(start) && SteadyRun(start, es) && Possible(start, es)
    requires var s := Run(start, es); p in s.claims && s.claims[p].ours
    ensures var s := Run(start, es); s.hub.Some? && s.hub.value.finalizer && Home(s, s.hub.value.spec) == Some(p)
    ensures var s := Run(start, es); var spec := s.hub.value.spec;
            && spec.valid && p.tenant == spec.tenant && p.cluster in s.engaged
            && Offers(s.profiles, spec.region, p.cluster)
  {
    SteadyRunKeeps(start, es);
    HomeMeans(Run(start, es), Run(start, es).hub.value.spec);
    assert ClaimOk(Run(start, es), p, Run(start, es).claims[p]);
  }
}
