/** Two writers, one status, for buckets: the request controller and any number
    of status passes agree once the spoke holds still, and then fall silent. */
module BucketStatus {
  import opened Options
  import opened BucketDomain
  import opened BucketProtocol
  import opened BucketSafety

  /** A live request whose cluster is engaged. */
  predicate Placed(s: State) { s.hub.Some? && !s.hub.value.marked && Home(s, s.hub.value.spec).Some? }

  function HomeOf(s: State): Place
    requires Placed(s)
  {
    Home(s, s.hub.value.spec).value
  }

  /** Phase and ConfigMap of the claim at home, if it exists. */
  function Shown(s: State): Option<(string, Option<Config>)>
    requires Placed(s)
  {
    if HomeOf(s) in s.claims then Some((s.claims[HomeOf(s)].phase, s.claims[HomeOf(s)].config)) else None
  }

  /** The status the spoke calls for. */
  function Target(s: State): Status
    requires Placed(s)
  {
    StatusFor(s, HomeOf(s).cluster, s.hub.value.spec)
  }

  predicate Agreed(s: State)
    requires Placed(s)
  {
    s.hub.value.status == Some(Target(s))
  }

  /** The request keeps its spec and home, and the claim there keeps its looks. */
  predicate Still(s: State, t: State) {
    && Placed(s) && Placed(t) && t.hub.value.spec == s.hub.value.spec && HomeOf(t) == HomeOf(s) && Shown(t) == Shown(s)
    && t.name == s.name && t.namespace == s.namespace
  }

  predicate StillRun(s: State, es: seq<Event>)
    decreases |es|
  {
    es == [] || (Enabled(s, es[0]) && Still(s, Step(s, es[0])) && StillRun(Step(s, es[0]), es[1..]))
  }

  lemma StillTarget(s: State, t: State)
    requires Still(s, t)
    ensures Target(t) == Target(s)
  {
  }

  // ---------- Passes ----------

  /** The status a pass has in its copy of the request, if it has one. */
  function SeenBy(pc: Pc): Option<Option<Status>> {
    match pc
    case ListProfiles(_, seen) => Some(seen)
    case GetCluster(_, seen, _) => Some(seen)
    case GetClaim(_, seen, _) => Some(seen)
    case CreateClaim(_, seen, _) => Some(seen)
    case ReadClaim(_, seen, _) => Some(seen)
    case ReadConfig(_, seen, _) => Some(seen)
    case _ => None
  }

  function StatusSeenBy(pc: StatusPc): Option<Option<Status>> {
    match pc
    case StatusProfiles(_, _, seen) => Some(seen)
    case StatusClaim(_, _, seen) => Some(seen)
    case StatusConfig(_, _, seen) => Some(seen)
    case _ => None
  }

  /** Passes that were in flight at some earlier moment. */
  datatype Elders = Elders(worker: bool, passes: set<nat>)

  const NO_ELDERS := Elders(false, {})

  function InFlight(s: State): Elders { Elders(s.worker.Some?, s.passes.Keys) }

  /** An elder that ended makes room for a younger pass of the same number. */
  function Remaining(s: State, elders: Elders): Elders {
    Elders(elders.worker && s.worker.Some?, elders.passes * s.passes.Keys)
  }

  /** The elders that are still in flight after a run. */
  function EldersAfter(s: State, es: seq<Event>, elders: Elders): Elders
    requires Possible(s, es)
    decreases |es|
  {
    if es == [] then elders
    else var t := Step(s, es[0]); EldersAfter(t, es[1..], Remaining(t, elders))
  }

  /** The event is a step of an elder. */
  predicate ByElder(e: Event, elders: Elders) {
    match e
    case Worker(_) => elders.worker
    case Pass(p, _) => p in elders.passes
    case Env(_) => false
  }

  /** The pass at pc ends here with Ok, having compared or written the status. */
  predicate Ends(s: State, pc: Pc) {
    pc.PatchStatus? || ((pc.ReadClaim? || pc.ReadConfig?) && Next(s, pc).None?)
  }

  predicate StatusEnds(s: State, pc: StatusPc) {
    pc.StatusPatch? || ((pc.StatusClaim? || pc.StatusConfig?) && StatusNext(s, pc).None?)
  }

  predicate Completes(s: State, e: Event) {
    match e
    case Worker(Call(Ok)) => s.worker.Some? && Ends(s, s.worker.value)
    case Pass(p, StatusCall(Ok)) => p in s.passes && StatusEnds(s, s.passes[p])
    case _ => false
  }

  // ---------- Bound passes ----------

  predicate BoundAtHome(s: State)
    requires Placed(s)
  {
    Shown(s).Some? && Shown(s).value.0 == BOUND
  }

  /** The pass works on the request as it is, at its home, and a status it is about to write is the target. */
  predicate WorkerBound(s: State, pc: Pc)
    requires Placed(s)
  {
    var now := s.hub.value.spec;
    match pc
    case AddFinalizer(spec) => spec == now
    case ListProfiles(spec, _) => spec == now
    case GetCluster(spec, _, cluster) => spec == now && cluster == HomeOf(s).cluster
    case GetClaim(spec, _, cluster) => spec == now && cluster == HomeOf(s).cluster
    case CreateClaim(spec, _, cluster) => spec == now && cluster == HomeOf(s).cluster
    case ReadClaim(spec, _, cluster) => spec == now && cluster == HomeOf(s).cluster
    case ReadConfig(spec, _, cluster) => spec == now && cluster == HomeOf(s).cluster && BoundAtHome(s)
    case PatchStatus(status) => status == Target(s)
    case _ => false
  }

  predicate PassBound(s: State, pc: StatusPc)
    requires Placed(s)
  {
    var now := s.hub.value.spec;
    match pc
    case StatusGet(_) => true
    case StatusProfiles(_, spec, _) => spec == now
    case StatusClaim(cluster, spec, _) => spec == now && cluster == HomeOf(s).cluster
    case StatusConfig(cluster, spec, _) => spec == now && cluster == HomeOf(s).cluster && BoundAtHome(s)
    case StatusPatch(status) => status == Target(s)
  }

  /** All but the elders are bound. */
  predicate YoungBound(s: State, elders: Elders)
    requires Placed(s)
  {
    && (s.worker.Some? && !elders.worker ==> WorkerBound(s, s.worker.value))
    && forall p :: p in s.passes && p !in elders.passes ==> PassBound(s, s.passes[p])
  }

  predicate AllBound(s: State)
    requires Placed(s)
  {
    YoungBound(s, NO_ELDERS)
  }

  lemma PassesElsewhere(s: State, e: Event)
    requires Enabled(s, e)
    ensures var t := Step(s, e);
            && (forall p :: p in t.passes && !(e.Pass? && e.pass == p) ==> p in s.passes && t.passes[p] == s.passes[p])
            && (!e.Worker? ==> t.worker == s.worker)
  {
  }

  /** A pass that begins while the spoke holds still is bound, and stays so. */
  lemma BoundStep(s: State, e: Event, elders: Elders)
    requires Enabled(s, e) && Still(s, Step(s, e)) && YoungBound(s, elders)
    ensures YoungBound(Step(s, e), Remaining(Step(s, e), elders))
  {
    var t := Step(s, e);
    StillTarget(s, t);
    PassesElsewhere(s, e);
    forall p | p in t.passes && p !in Remaining(t, elders).passes ensures PassBound(t, t.passes[p]) {
      if e.Pass? && e.pass == p { PassBoundStep(s, p, e.statusAct, elders); }
      else { assert PassBound(s, s.passes[p]); }
    }
    if e.Worker? { WorkerBoundStep(s, e.act, elders); }
  }

  lemma PassBoundStep(s: State, p: nat, act: StatusAct, elders: Elders)
    requires StatusEnabled(s, p, act) && Still(s, StatusStep(s, p, act)) && YoungBound(s, elders)
    ensures var t := StatusStep(s, p, act);
            p in t.passes && p !in Remaining(t, elders).passes ==> PassBound(t, t.passes[p])
  {
    StillTarget(s, StatusStep(s, p, act));
    assert p in s.passes && p !in elders.passes ==> PassBound(s, s.passes[p]);
  }

  lemma WorkerBoundStep(s: State, act: Act, elders: Elders)
    requires ActEnabled(s, act) && Still(s, ActStep(s, act)) && YoungBound(s, elders)
    ensures var t := ActStep(s, act);
            t.worker.Some? && !Remaining(t, elders).worker ==> WorkerBound(t, t.worker.value)
  {
    var t := ActStep(s, act);
    StillTarget(s, t);
    if act.Call? && t.worker.Some? && !elders.worker {
      var after := Effect(s, s.worker.value);
      assert t == after.(worker := t.worker);
      assert Still(s, after) && Target(after) == Target(t);
      NextBound(s, after, s.worker.value);
    }
  }

  lemma NextBound(s: State, after: State, pc: Pc)
    requires after == Effect(s, pc) && Accepts(s, pc) && Still(s, after) && WorkerBound(s, pc)
    ensures Next(after, pc).Some? ==> WorkerBound(after, Next(after, pc).value)
  {
    StillTarget(s, after);
  }

  /** Where every pass is bound, a step leaves the status alone or sets the target. */
  lemma StatusAfter(s: State, e: Event)
    requires Enabled(s, e) && Still(s, Step(s, e)) && AllBound(s)
    ensures Step(s, e).hub.value.status == s.hub.value.status || Agreed(Step(s, e))
    ensures Agreed(s) ==> Agreed(Step(s, e))
  {
    var t := Step(s, e);
    StillTarget(s, t);
    match e {
      case Worker(Call(reply)) => assert s.worker.value.PatchStatus? ==> s.worker.value.status == Target(s);
      case Pass(p, act) => assert p in s.passes ==> PassBound(s, s.passes[p]);
      case _ =>
    }
  }

  // ---------- Trusted copies ----------

  /** A young pass that would not write trusts a copy that still stands. */
  predicate YoungTrusted(s: State, elders: Elders)
    requires Placed(s)
  {
    && (s.worker.Some? && !elders.worker && SeenBy(s.worker.value) == Some(Some(Target(s))) ==> Agreed(s))
    && forall p :: p in s.passes && p !in elders.passes && PassSaw(s.passes[p], Target(s)) ==> Agreed(s)
  }

  predicate PassSaw(pc: StatusPc, status: Status) { StatusSeenBy(pc) == Some(Some(status)) }

  lemma TrustStep(s: State, e: Event, elders: Elders)
    requires Enabled(s, e) && Still(s, Step(s, e)) && AllBound(s) && YoungTrusted(s, elders)
    ensures YoungTrusted(Step(s, e), Remaining(Step(s, e), elders))
  {
    var t := Step(s, e);
    StatusAfter(s, e);
    StillTarget(s, t);
    PassesElsewhere(s, e);
    forall p | p in t.passes && p !in Remaining(t, elders).passes && PassSaw(t.passes[p], Target(t)) ensures Agreed(t) {
      if e.Pass? && e.pass == p { PassTrustStep(s, p, e.statusAct, elders); }
      else { assert PassSaw(s.passes[p], Target(s)); }
    }
    if e.Worker? && e.act.Call? && t.worker.Some? && !elders.worker {
      NextTrusts(s, Effect(s, s.worker.value), s.worker.value);
    }
  }

  lemma PassTrustStep(s: State, p: nat, act: StatusAct, elders: Elders)
    requires StatusEnabled(s, p, act) && Still(s, StatusStep(s, p, act)) && YoungTrusted(s, elders)
    requires Agreed(s) ==> Agreed(StatusStep(s, p, act))
    ensures var t := StatusStep(s, p, act);
            p in t.passes && p !in Remaining(t, elders).passes && PassSaw(t.passes[p], Target(t)) ==> Agreed(t)
  {
    StillTarget(s, StatusStep(s, p, act));
    assert p in s.passes && p !in elders.passes && PassSaw(s.passes[p], Target(s)) ==> Agreed(s);
  }

  /** A call keeps the pass's copy of the status, or takes the one on the hub. */
  lemma NextTrusts(s: State, after: State, pc: Pc)
    requires after == Effect(s, pc) && after.hub.Some?
    ensures var next := Next(after, pc);
            next.Some? && SeenBy(next.value).Some? ==>
              if pc.AddFinalizer? then SeenBy(next.value) == Some(after.hub.value.status)
                 else SeenBy(next.value) == SeenBy(pc)
  {
  }

  /** A young pass that ends where the status is compared or written leaves the target behind. */
  lemma CompletionAgrees(s: State, e: Event, elders: Elders)
    requires Enabled(s, e) && Still(s, Step(s, e)) && AllBound(s) && YoungTrusted(s, elders)
    requires Completes(s, e) && !ByElder(e, elders)
    ensures Agreed(Step(s, e))
  {
    StatusAfter(s, e);
    StillTarget(s, Step(s, e));
    if e.Pass? {
      assert PassBound(s, s.passes[e.pass]);
      assert PassSaw(s.passes[e.pass], Target(s)) ==> Agreed(s);
    }
  }

  // ---------- Runs ----------

  lemma {:induction false} StillSplits(s: State, es: seq<Event>, fs: seq<Event>)
    requires StillRun(s, es + fs)
    ensures StillRun(s, es) && Possible(s, es) && StillRun(Run(s, es), fs)
    ensures Possible(s, es + fs) && Possible(Run(s, es), fs) && Run(s, es + fs) == Run(Run(s, es), fs)
    decreases |es|
  {
    if es == [] {
      assert es + fs == fs;
      StillIsPossible(s, fs);
    } else {
      assert (es + fs)[1..] == es[1..] + fs;
      StillSplits(Step(s, es[0]), es[1..], fs);
    }
  }

  lemma {:induction false} StillIsPossible(s: State, es: seq<Event>)
    requires StillRun(s, es)
    ensures Possible(s, es)
    decreases |es|
  {
    if es != [] { StillIsPossible(Step(s, es[0]), es[1..]); }
  }

  /** Once the elders have ended, every pass is bound. */
  lemma {:induction false} BoundAlong(s: State, es: seq<Event>, elders: Elders)
    requires Placed(s) && StillRun(s, es) && Possible(s, es) && YoungBound(s, elders)
    ensures Placed(Run(s, es)) && Target(Run(s, es)) == Target(s)
    ensures YoungBound(Run(s, es), EldersAfter(s, es, elders))
    decreases |es|
  {
    if es != [] {
      var t := Step(s, es[0]);
      StillTarget(s, t);
      BoundStep(s, es[0], elders);
      BoundAlong(t, es[1..], Remaining(t, elders));
    }
  }

  lemma {:induction false} TrustAlong(s: State, es: seq<Event>, elders: Elders)
    requires Placed(s) && StillRun(s, es) && Possible(s, es) && AllBound(s) && YoungTrusted(s, elders)
    ensures Placed(Run(s, es)) && Target(Run(s, es)) == Target(s) && AllBound(Run(s, es))
    ensures YoungTrusted(Run(s, es), EldersAfter(s, es, elders))
    decreases |es|
  {
    if es != [] {
      var t := Step(s, es[0]);
      StillTarget(s, t);
      BoundStep(s, es[0], NO_ELDERS);
      TrustStep(s, es[0], elders);
      TrustAlong(t, es[1..], Remaining(t, elders));
    }
  }

  lemma {:induction false} StaysAgreed(s: State, es: seq<Event>)
    requires Placed(s) && AllBound(s) && Agreed(s) && StillRun(s, es) && Possible(s, es)
    ensures Placed(Run(s, es)) && Target(Run(s, es)) == Target(s) && Agreed(Run(s, es)) && AllBound(Run(s, es))
    decreases |es|
  {
    if es != [] {
      StillTarget(s, Step(s, es[0]));
      BoundStep(s, es[0], NO_ELDERS);
      StatusAfter(s, es[0]);
      StaysAgreed(Step(s, es[0]), es[1..]);
    }
  }

  /** Where no pass is older than the stillness, every pass is bound: with
      nothing in flight, or once `older` has seen every earlier pass end. */
  lemma OlderPassesEnd(s: State, older: seq<Event>)
    requires Placed(s) && StillRun(s, older) && Possible(s, older) && EldersAfter(s, older, InFlight(s)) == NO_ELDERS
    ensures Placed(Run(s, older)) && AllBound(Run(s, older)) && Target(Run(s, older)) == Target(s)
  {
    BoundAlong(s, older, InFlight(s));
  }

  /** Eventual agreement. From s on, the spoke holds still. In `older` every
      pass that was in flight at s ends. The first pass of either controller
      that begins after that and completes, at e, leaves the status the spoke
      calls for, and it stays. */
  lemma Agreement(s: State, older: seq<Event>, before: seq<Event>, e: Event, after: seq<Event>)
    requires Placed(s) && StillRun(s, older + (before + ([e] + after)))
    requires Possible(s, older) && EldersAfter(s, older, InFlight(s)) == NO_ELDERS
    requires var b := Run(s, older);
             Possible(b, before) && Completes(Run(b, before), e) && !ByElder(e, EldersAfter(b, before, InFlight(b)))
    ensures var es := older + (before + ([e] + after));
            && Possible(s, es) && Placed(Run(s, es))
            && Run(s, es).hub.value.status == Some(Target(s)) && Agreed(Run(s, es)) && AllBound(Run(s, es))
    ensures var t := Run(s, older + (before + ([e] + after))); var spec := t.hub.value.spec;
            t.hub.value.status.Some? &&
            exists cluster :: cluster in t.engaged && Offers(t.profiles, spec.region, cluster) &&
                              Reports(t, cluster, spec, t.hub.value.status.value)
  {
    StillSplits(s, older, before + ([e] + after));
    OlderPassesEnd(s, older);
    var b := Run(s, older);
    StillSplits(b, before, [e] + after);
    TrustAlong(b, before, InFlight(b));
    var c := Run(b, before);
    assert ([e] + after)[0] == e && ([e] + after)[1..] == after;
    StillTarget(c, Step(c, e));
    CompletionAgrees(c, e, EldersAfter(b, before, InFlight(b)));
    BoundStep(c, e, NO_ELDERS);
    StaysAgreed(Step(c, e), after);
    AgreedReports(Run(Step(c, e), after));
  }

  /** What agreement means. */
  lemma AgreedReports(t: State)
    requires Placed(t) && Agreed(t)
    ensures var spec := t.hub.value.spec;
            t.hub.value.status.Some? &&
            exists cluster :: cluster in t.engaged && Offers(t.profiles, spec.region, cluster) &&
                              Reports(t, cluster, spec, t.hub.value.status.value)
  {
    var spec := t.hub.value.spec;
    HomeMeans(t, spec);
    StatusForReports(t, HomeOf(t).cluster, spec);
  }

  /** The passes that complete: an answered call after which the pass is gone,
      where it compared or wrote the status. */
  lemma CompletesMeans(s: State, e: Event)
    requires Enabled(s, e)
    ensures Completes(s, e) <==>
            || (e == Worker(Call(Ok)) && Step(s, e).worker.None? &&
                (var pc := s.worker.value; pc.PatchStatus? || pc.ReadClaim? || pc.ReadConfig?))
            || (e.Pass? && e.statusAct == StatusCall(Ok) && e.pass !in Step(s, e).passes &&
                (var pc := s.passes[e.pass]; pc.StatusPatch? || pc.StatusClaim? || pc.StatusConfig?))
  {
  }

  // ---------- Silence ----------

  predicate YoungWrite(s: State, e: Event, elders: Elders) {
    match e
    case Worker(Call(_)) => !elders.worker && s.worker.Some? && s.worker.value.PatchStatus?
    case Pass(p, StatusCall(_)) => p !in elders.passes && p in s.passes && s.passes[p].StatusPatch?
    case _ => false
  }

  predicate NoYoungWrites(s: State, es: seq<Event>, elders: Elders)
    decreases |es|
  {
    es == [] || (Enabled(s, es[0]) && !YoungWrite(s, es[0], elders) &&
                 var t := Step(s, es[0]); NoYoungWrites(t, es[1..], Remaining(t, elders)))
  }

  predicate YoungWorkerSeen(s: State, elders: Elders)
    requires Placed(s)
  {
    s.worker.Some? && !elders.worker ==> s.worker.value.AddFinalizer? || SeenBy(s.worker.value) == Some(Some(Target(s)))
  }

  predicate YoungPassSeen(s: State, p: nat, elders: Elders)
    requires Placed(s)
  {
    p in s.passes && p !in elders.passes ==>
        s.passes[p].StatusGet? || StatusSeenBy(s.passes[p]) == Some(Some(Target(s)))
  }

  /** Silence: once the status is agreed, whoever writes it later was in flight
      then already; no pass begun since writes, even one overlapping such passes. */
  lemma Silence(s: State, before: seq<Event>, e: Event, after: seq<Event>)
    requires Placed(s) && AllBound(s) && Agreed(s) && StillRun(s, before + ([e] + after))
    ensures Possible(s, before)
    ensures var t := Run(s, before);
            || (e.Worker? && e.act.Call? && t.worker.Some? && t.worker.value.PatchStatus?)
            || (e.Pass? && e.statusAct.StatusCall? && e.pass in t.passes && t.passes[e.pass].StatusPatch?)
            ==> ByElder(e, EldersAfter(s, before, InFlight(s)))
  {
    StillSplits(s, before, [e] + after);
    SilentAlong(s, before + ([e] + after), InFlight(s));
    SilentAt(s, before, e, after, InFlight(s));
  }

  lemma {:induction false} SilentAt(s: State, before: seq<Event>, e: Event, after: seq<Event>, elders: Elders)
    requires Possible(s, before) && NoYoungWrites(s, before + ([e] + after), elders)
    ensures !YoungWrite(Run(s, before), e, EldersAfter(s, before, elders))
    decreases |before|
  {
    var es := before + ([e] + after);
    if before == [] {
      assert es[0] == e;
    } else {
      assert es[0] == before[0] && es[1..] == before[1..] + ([e] + after);
      var t := Step(s, before[0]);
      SilentAt(t, before[1..], e, after, Remaining(t, elders));
    }
  }

  lemma {:induction false} SilentAlong(s: State, es: seq<Event>, elders: Elders)
    requires Placed(s) && AllBound(s) && Agreed(s) && StillRun(s, es) && (elders.worker ==> s.worker.Some?)
    requires YoungWorkerSeen(s, elders) && forall p :: p in s.passes ==> YoungPassSeen(s, p, elders)
    ensures NoYoungWrites(s, es, elders)
    decreases |es|
  {
    if es != [] {
      var t := Step(s, es[0]);
      BoundStep(s, es[0], NO_ELDERS);
      StatusAfter(s, es[0]);
      SilentWorker(s, es[0], elders);
      forall p | p in t.passes ensures YoungPassSeen(t, p, Remaining(t, elders)) { SilentPass(s, es[0], p, elders); }
      assert !YoungWrite(s, es[0], elders) by {
        if es[0].Pass? && es[0].pass in s.passes { assert YoungPassSeen(s, es[0].pass, elders); }
      }
      SilentAlong(t, es[1..], Remaining(t, elders));
    }
  }

  lemma SilentWorker(s: State, e: Event, elders: Elders)
    requires Enabled(s, e) && Still(s, Step(s, e)) && AllBound(s) && Agreed(s) && Agreed(Step(s, e))
    requires YoungWorkerSeen(s, elders) && (elders.worker ==> s.worker.Some?)
    ensures YoungWorkerSeen(Step(s, e), Remaining(Step(s, e), elders))
  {
    var t := Step(s, e);
    StillTarget(s, t);
    PassesElsewhere(s, e);
    if e.Worker? && e.act.Call? && t.worker.Some? && !elders.worker {
      var after := Effect(s, s.worker.value);
      assert t == after.(worker := t.worker);
      assert Still(s, after) && Target(after) == Target(t);
      SilentNext(s, after, s.worker.value);
    }
  }

  lemma SilentNext(s: State, after: State, pc: Pc)
    requires after == Effect(s, pc) && Accepts(s, pc) && Still(s, after) && WorkerBound(s, pc) && Agreed(after)
    requires pc.AddFinalizer? || SeenBy(pc) == Some(Some(Target(s)))
    ensures Next(after, pc).Some? ==> SeenBy(Next(after, pc).value) == Some(Some(Target(after)))
  {
    StillTarget(s, after);
  }

  lemma SilentPass(s: State, e: Event, p: nat, elders: Elders)
    requires Enabled(s, e) && Still(s, Step(s, e)) && AllBound(s) && Agreed(s) && Agreed(Step(s, e))
    requires p in s.passes ==> YoungPassSeen(s, p, elders)
    ensures YoungPassSeen(Step(s, e), p, Remaining(Step(s, e), elders))
  {
    StillTarget(s, Step(s, e));
    PassesElsewhere(s, e);
    if e.Pass? && e.pass == p { MovedPassSilent(s, p, e.statusAct, elders); }
  }

  lemma MovedPassSilent(s: State, p: nat, act: StatusAct, elders: Elders)
    requires StatusEnabled(s, p, act) && Still(s, StatusStep(s, p, act)) && AllBound(s) && Agreed(s)
    requires p in s.passes ==> YoungPassSeen(s, p, elders)
    ensures YoungPassSeen(StatusStep(s, p, act), p, Remaining(StatusStep(s, p, act), elders))
  {
    StillTarget(s, StatusStep(s, p, act));
    assert p in s.passes ==> PassBound(s, s.passes[p]);
  }

  // ---------- Other clusters ----------

  /** While pass p lives, it makes no write. */
  predicate WritesNothing(s: State, es: seq<Event>, p: nat)
    decreases |es|
  {
    p in s.passes ==>
      !s.passes[p].StatusPatch? && (es == [] || (Enabled(s, es[0]) && WritesNothing(Step(s, es[0]), es[1..], p)))
  }

  /** A pass begun for a claim on a cluster other than the request's home never
      comes to write, nor even to read a claim, whatever happens around it. */
  lemma ForeignClusterStops(s: State, p: nat, place: Place, es: seq<Event>)
    requires StatusEnabled(s, p, StatusBegin(place)) && Placed(s) && place.cluster != HomeOf(s).cluster
    requires StillRun(StatusStep(s, p, StatusBegin(place)), es)
    ensures WritesNothing(StatusStep(s, p, StatusBegin(place)), es, p)
  {
    StopsAlong(StatusStep(s, p, StatusBegin(place)), p, place.cluster, es);
  }

  /** The pass has read the request at most, as it still is. */
  predicate Foreign(s: State, pc: StatusPc, cluster: string)
    requires Placed(s)
  {
    !pc.StatusPatch? && pc.cluster == cluster && (pc.StatusGet? || (pc.StatusProfiles? && pc.spec == s.hub.value.spec))
  }

  lemma {:induction false} StopsAlong(s: State, p: nat, cluster: string, es: seq<Event>)
    requires Placed(s) && cluster != HomeOf(s).cluster && StillRun(s, es)
    requires p in s.passes ==> Foreign(s, s.passes[p], cluster)
    ensures WritesNothing(s, es, p)
    decreases |es|
  {
    if es != [] && p in s.passes {
      PassesElsewhere(s, es[0]);
      StopsAlong(Step(s, es[0]), p, cluster, es[1..]);
    }
  }
}
