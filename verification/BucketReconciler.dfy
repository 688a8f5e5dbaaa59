/** The two bucket reconcilers, statement by statement, against a world shared
    with everybody else: each walks the protocol whatever interferes. */
module BucketReconciler {
  import opened Options
  import opened BucketDomain
  import opened BucketProtocol
  import opened BucketSafety
  import Runs

  // ---------- Reachability ----------

  /** Where an event leads that may happen and is steady. */
  function SteadyNext(s: State, e: Event): Option<State> {
    if Enabled(s, e) && Steady(s, e) then Some(Step(s, e)) else None
  }

  ghost predicate Reaches(s: State, t: State) { Runs.Reaches(SteadyNext, s, t) }

  /** Reaching is by steady runs. */
  lemma {:induction false} SteadyRunsReach(s: State, es: seq<Event>, t: State)
    ensures Runs.Leads(SteadyNext, s, es, t) <==> SteadyRun(s, es) && Possible(s, es) && Run(s, es) == t
    decreases |es|
  {
    if es != [] && Enabled(s, es[0]) && Steady(s, es[0]) { SteadyRunsReach(Step(s, es[0]), es[1..], t); }
  }

  /** Whatever the reconcilers and everybody else do, the invariant of BucketSafety holds. */
  lemma ReachesSafely(s: State, t: State)
    requires Inv(s) && Reaches(s, t)
    ensures Inv(t)
  {
    forall u, e | Inv(u) && SteadyNext(u, e).Some? ensures Inv(SteadyNext(u, e).value) { StepKeeps(u, e); }
    Runs.ReachesKeeps(SteadyNext, u => Inv(u), s, t);
  }

  // ---------- Client calls ----------

  /** What a controller asks of an API server or of the fleet. */
  datatype ClientCall =
    | GetRequest
    | PatchFinalizer
    | DropFinalizer
    | WriteStatus(status: Status)
    | ListProfilesCall
    | LookUpCluster(cluster: string)
    | GetClaimAt(place: Place)
    | NewClaim(place: Place)
    | RemoveClaimAt(place: Place)
    | GetConfigAt(place: Place)

  predicate IsWrite(call: ClientCall) {
    call.PatchFinalizer? || call.DropFinalizer? || call.WriteStatus? || call.NewClaim? || call.RemoveClaimAt?
  }

  /** What an answered call does to the servers, whoever makes it. */
  function AfterCall(s: State, call: ClientCall): State {
    match call
    case PatchFinalizer => s.(hub := if s.hub.Some? then Some(s.hub.value.(finalizer := true)) else None)
    case DropFinalizer =>
      s.(hub := if s.hub.Some? && !s.hub.value.marked then Some(s.hub.value.(finalizer := false)) else None)
    case WriteStatus(status) => s.(hub := if s.hub.Some? then Some(s.hub.value.(status := Some(status))) else None)
    case NewClaim(p) => s.(claims := if p in s.claims then s.claims
         else s.claims[p := SpokeClaim(true, "", None, false)])
    case RemoveClaimAt(p) => s.(claims := if p in s.claims then s.claims[p := s.claims[p].(deleting := true)]
         else s.claims)
    case _ => s
  }

  /** The call a program point stands for. */
  function CallAt(pc: Pc): ClientCall {
    match pc
    case AddFinalizer(_) => PatchFinalizer
    case ListProfiles(_, _) => ListProfilesCall
    case GetCluster(_, _, cluster) => LookUpCluster(cluster)
    case GetClaim(spec, _, cluster) => GetClaimAt(Place(cluster, spec.tenant))
    case CreateClaim(spec, _, cluster) => NewClaim(Place(cluster, spec.tenant))
    case ReadClaim(spec, _, cluster) => GetClaimAt(Place(cluster, spec.tenant))
    case ReadConfig(spec, _, cluster) => GetConfigAt(Place(cluster, spec.tenant))
    case PatchStatus(status) => WriteStatus(status)
    case FinProfiles(_) => ListProfilesCall
    case FinCluster(_, cluster) => LookUpCluster(cluster)
    case DeleteClaim(spec, cluster) => RemoveClaimAt(Place(cluster, spec.tenant))
    case CheckGone(spec, cluster) => GetClaimAt(Place(cluster, spec.tenant))
    case Release => DropFinalizer
  }

  function StatusCallAt(pc: StatusPc): ClientCall {
    match pc
    case StatusGet(_) => GetRequest
    case StatusProfiles(_, _, _) => ListProfilesCall
    case StatusClaim(cluster, spec, _) => GetClaimAt(Place(cluster, spec.tenant))
    case StatusConfig(cluster, spec, _) => GetConfigAt(Place(cluster, spec.tenant))
    case StatusPatch(status) => WriteStatus(status)
  }

  /** The protocol's effects are those of the calls the controllers make. */
  lemma EffectIsCall(s: State, pc: Pc)
    ensures Effect(s, pc) == AfterCall(s, CallAt(pc))
  {
  }

  lemma StatusEffectIsCall(s: State, p: nat, reply: Reply)
    requires p in s.passes && reply != Failed
    ensures StatusStep(s, p, StatusCall(reply)).(passes := s.passes) == AfterCall(s, StatusCallAt(s.passes[p]))
  {
  }

  // ---------- The world ----------

  /** Which controller a program point belongs to. */
  datatype Actor = Requests | StatusPass(pass: nat)

  function PassOf(s: State, p: nat): Option<StatusPc> { if p in s.passes then Some(s.passes[p]) else None }

  predicate Unmoved(s: State, t: State, actor: Actor) {
    match actor
    case Requests => t.worker == s.worker
    case StatusPass(p) => PassOf(t, p) == PassOf(s, p)
  }

  predicate MovedBy(e: Event, actor: Actor) {
    match actor
    case Requests => e.Worker?
    case StatusPass(p) => e.Pass? && e.pass == p
  }

  lemma ActorUnmoved(s: State, e: Event, actor: Actor)
    requires Enabled(s, e) && !MovedBy(e, actor)
    ensures Unmoved(s, Step(s, e), actor)
  {
  }

  class World {
    var s: State
    var writes: nat
    const quiet: bool

    constructor (s: State, quiet: bool)
      ensures this.s == s && this.quiet == quiet && writes == 0
    {
      this.s := s;
      this.quiet := quiet;
      writes := 0;
    }

    /** Any number of steady steps by anyone but the actor's own pass. */
    method Interfere(actor: Actor)
      modifies this`s
      ensures Reaches(old(s), s) && Unmoved(old(s), s, actor)
      ensures quiet ==> s == old(s)
    {
      Runs.ReachesItself(SteadyNext, s);
      var n: nat := *;
      if quiet { n := 0; }
      while n > 0
        invariant Reaches(old(s), s) && Unmoved(old(s), s, actor)
        invariant quiet ==> n == 0 && s == old(s)
      {
        var e: Event := *;
        if Enabled(s, e) && Steady(s, e) && !MovedBy(e, actor) {
          Runs.ReachesNext(SteadyNext, old(s), s, e, Step(s, e));
          ActorUnmoved(s, e, actor);
          s := Step(s, e);
        }
        n := n - 1;
      }
    }

    method Reply() returns (reply: Reply)
      ensures quiet ==> reply == Ok
    {
      reply := *;
      if quiet { reply := Ok; }
    }

    method GetRequest() returns (ok: bool, obj: Option<HubObject>)
      requires s.worker.None?
      modifies this`s
      ensures Reaches(old(s), s)
      ensures s.worker == if ok && obj.Some? then AfterGet(obj.value) else None
      ensures quiet ==> ok && obj == old(s).hub && s == old(s).(worker := s.worker)
    {
      Interfere(Requests);
      obj := s.hub;
      ok := *;
      if quiet { ok := true; }
      if ok {
        Runs.ReachesNext(SteadyNext, old(s), s, Worker(Begin), Step(s, Worker(Begin)));
        s := ActStep(s, Begin);
      }
    }

    /** One client call of the request pass; served is the state it was answered in. */
    method Issue(call: ClientCall) returns (ok: bool, served: State)
      requires s.worker.Some? && call == CallAt(s.worker.value)
      modifies this
      ensures Reaches(old(s), s) && served.worker == old(s).worker
      ensures ok ==> Accepts(served, served.worker.value) && s == CallStep(served, Ok)
      ensures ok ==> s == AfterCall(served, call).(worker := s.worker)
      ensures !ok ==> s.worker == None
      ensures quiet ==> served == old(s) && ok == Accepts(served, served.worker.value)
      ensures writes == old(writes) + if IsWrite(call) then 1 else 0
    {
      Interfere(Requests);
      served := s;
      EffectIsCall(s, s.worker.value);
      var reply := Reply();
      Runs.ReachesNext(SteadyNext, old(s), s, Worker(Call(reply)), Step(s, Worker(Call(reply))));
      ok := reply == Ok && Accepts(s, s.worker.value);
      s := CallStep(s, reply);
      if IsWrite(call) { writes := writes + 1; }
    }

    /** One client call of a status pass. */
    method IssueStatus(p: nat, call: ClientCall) returns (ok: bool, served: State)
      requires p in s.passes && call == StatusCallAt(s.passes[p])
      modifies this
      ensures Reaches(old(s), s) && PassOf(served, p) == PassOf(old(s), p)
      ensures PassOf(s, p) == if ok then StatusNext(served, old(s).passes[p]) else None
      ensures ok ==> s == AfterCall(served, call).(passes := s.passes)
      ensures quiet ==> ok && served == old(s) && s == StatusStep(old(s), p, StatusCall(Ok))
      ensures writes == old(writes) + if IsWrite(call) then 1 else 0
    {
      Interfere(StatusPass(p));
      assert PassOf(s, p) == PassOf(old(s), p);
      served := s;
      var reply := Reply();
      Runs.ReachesNext(SteadyNext, old(s), s, Pass(p, StatusCall(reply)), Step(s, Pass(p, StatusCall(reply))));
      ok := reply == Ok;
      if ok { StatusEffectIsCall(s, p, reply); }
      s := StatusStep(s, p, StatusCall(reply));
      if IsWrite(call) { writes := writes + 1; }
    }
  }

  /** A live request that carries everything a pass needs. */
  predicate Placeable(s: State) { s.hub.Some? && !s.hub.value.marked && Home(s, s.hub.value.spec).Some? }

  /** The claim exists at home and the status says what the spoke shows. */
  predicate Converged(s: State) {
    && Placeable(s) && s.hub.value.finalizer
    && var p := Home(s, s.hub.value.spec).value;
    && p in s.claims && s.hub.value.status == Some(StatusFor(s, p.cluster, s.hub.value.spec))
  }

  // ---------- What a pass does, in plain terms ----------

  /** A request with its claim at home: the claim is there, an existing one as it was, and the status reports it. */
  predicate Served(s: State, t: State, spec: Spec, p: Place) {
    && s.hub.Some? && t.hub.Some? && t.hub.value.status.Some? && Reports(t, p.cluster, spec, t.hub.value.status.value)
    && t == s.(hub := Some(s.hub.value.(finalizer := true, status := t.hub.value.status)), worker := None,
               claims := if p in s.claims then s.claims else s.claims[p := SpokeClaim(true, "", None, false)])
  }

  /** A live request with a tenant: served at home, reported as unschedulable without one. */
  predicate Attended(s: State, t: State, obj: HubObject, ok: bool) {
    var spec := obj.spec;
    match Home(s, spec)
    case Some(p) => ok && s.hub == Some(obj) && Served(s, t, spec, p)
    case None =>
      var status := Status(spec.region, Unschedulable, "", "", NoStorage(spec.region));
      ok && t == s.(hub := Some(obj.(finalizer := true, status := Some(status))), worker := None)
  }

  /** A request on its way out waits while its claim is at home, which is asked to go, and leaves the hub otherwise. */
  predicate Released(s: State, t: State, spec: Spec) {
    match Home(s, spec)
    case Some(p) =>
      if p in s.claims then t == s.(claims := s.claims[p := s.claims[p].(deleting := true)], worker := None)
      else t == s.(hub := None, worker := None)
    case None => t == s.(hub := None, worker := None)
  }

  /** Everything an undisturbed pass does, from any state. */
  predicate Undisturbed(s: State, t: State, ok: bool) {
    match s.hub
    case None => ok && t == s
    case Some(obj) =>
      if obj.marked then ok && if obj.finalizer then Released(s, t, obj.spec) else t == s
      else if !obj.spec.valid then !ok && t == s
      else if obj.spec.tenant == "" then
        var status := Status(obj.spec.region, Unschedulable, "", "", MissingTenantLabel);
        ok && t == s.(hub := Some(obj.(status := Some(status))))
      else Attended(s, t, obj, ok)
  }

  lemma AttendedConverges(s: State, t: State, obj: HubObject, ok: bool)
    requires Placeable(s) && s.hub == Some(obj) && Attended(s, t, obj, ok)
    ensures ok && Converged(t) && t.hub.value.spec == obj.spec
  {
    StatusForReports(t, Home(s, obj.spec).value.cluster, obj.spec);
  }

  /** The fixpoint in plain terms: the finalizer, the claim on the first
      profile that offers the region, and the status that reports it. */
  lemma FixpointMeans(s: State)
    requires s.hub.Some? && !s.hub.value.marked
    ensures var obj, spec := s.hub.value, s.hub.value.spec;
            Converged(s) <==>
              && spec.valid && spec.tenant != "" && obj.finalizer && obj.status.Some?
              && exists cluster :: cluster in s.engaged && Offers(s.profiles, spec.region, cluster) &&
                                   Place(cluster, spec.tenant) in s.claims &&
                                   Reports(s, cluster, spec, obj.status.value)
  {
    var spec := s.hub.value.spec;
    HomeMeans(s, spec);
    if Home(s, spec).Some? { StatusForReports(s, Home(s, spec).value.cluster, spec); }
    if spec.valid && spec.tenant != "" {
      forall cluster | cluster in s.engaged && Offers(s.profiles, spec.region, cluster)
        ensures Home(s, spec) == Some(Place(cluster, spec.tenant))
      {
        var p := Place(cluster, spec.tenant);
        assert p.cluster == cluster;
      }
    }
  }

  // ---------- Which cluster serves a region ----------

  /** The list shows exactly these profiles, by name and region label, in any order. */
  predicate Shows(list: seq<Profile>, regionLabel: string, profiles: map<string, string>) {
    && (forall p :: p in list ==> p.name in profiles && Label(p, regionLabel) == profiles[p.name])
    && (forall n :: n in profiles ==> exists p :: p in list && p.name == n)
  }

  /** What ResolveCluster makes of the list is the protocol's Resolve. */
  lemma ResolvedIs(list: seq<Profile>, regionLabel: string, profiles: map<string, string>, region: string,
                   result: Option<string>)
    requires Shows(list, regionLabel, profiles) && Resolves(region, regionLabel, list, result)
    ensures result == Resolve(profiles, region)
    ensures result.None? <==> forall n :: n in profiles ==> profiles[n] != region
    ensures result.Some? ==> Offers(profiles, region, result.value)
  {
    ResolveMeans(profiles, region);
    forall n | n in Offering(profiles, region) ensures n in Serving(region, regionLabel, list) {
      var p :| p in list && p.name == n;
      assert Label(p, regionLabel) == region;
    }
    assert Serving(region, regionLabel, list) == Offering(profiles, region);
    if result.Some? { LeastUnique(result.value, Least(Offering(profiles, region)), Offering(profiles, region)); }
  }

  /** The server's list of the profiles, in an order of its own. */
  method ListOf(profiles: map<string, string>, regionLabel: string) returns (list: seq<Profile>)
    ensures Shows(list, regionLabel, profiles)
  {
    list := [];
    var rest := profiles.Keys;
    while rest != {}
      invariant rest <= profiles.Keys
      invariant forall p :: p in list ==> p.name in profiles && Label(p, regionLabel) == profiles[p.name]
      invariant forall n :: n in profiles && n !in rest ==> exists p :: p in list && p.name == n
    {
      var n :| n in rest;
      ghost var before := list;
      var p := Profile(n, map[regionLabel := profiles[n]]);
      list := list + [p];
      rest := rest - {n};
      forall m | m in profiles && m !in rest ensures exists q :: q in list && q.name == m {
        if m == n { assert p in list; } else { var q :| q in before && q.name == m; assert q in list; }
      }
    }
  }

  method ClusterNameFor(profiles: map<string, string>, regionLabel: string, region: string)
    returns (name: Option<string>)
    ensures name == Resolve(profiles, region)
    ensures name.None? <==> forall n :: n in profiles ==> profiles[n] != region
    ensures name.Some? ==> Offers(profiles, region, name.value)
  {
    var list := ListOf(profiles, regionLabel);
    name := ResolveCluster(region, regionLabel, list);
    ResolvedIs(list, regionLabel, profiles, region, name);
  }

  /** The hub after patchStatus, by a pass whose copy shows the status seen. */
  function Patched(hub: Option<HubObject>, seen: Option<Status>, status: Status): Option<HubObject> {
    if seen == Some(status) || hub.None? then hub else Some(hub.value.(status := Some(status)))
  }

  // ---------- RequestReconciler ----------

  class RequestReconciler {
    const world: World
    const regionLabel: string

    constructor (world: World, regionLabel: string)
      ensures this.world == world && this.regionLabel == regionLabel
    {
      this.world := world;
      this.regionLabel := regionLabel;
    }

    /** One pass: a steady run of the protocol; undisturbed, it converges, and
        writes nothing where that is done already. */
    method Reconcile() returns (ok: bool)
      requires world.s.worker.None?
      modifies world
      ensures world.s.worker.None? && Reaches(old(world.s), world.s)
      ensures world.quiet ==> Undisturbed(old(world.s), world.s, ok)
      ensures world.quiet && Placeable(old(world.s)) ==>
              ok && Converged(world.s) && world.s.hub.value.spec == old(world.s).hub.value.spec
      ensures world.quiet && Converged(old(world.s)) ==> world.s == old(world.s) && world.writes == old(world.writes)
    {
      ghost var start := world.s;
      var got, found := world.GetRequest();
      if !got || found.None? { return got; }
      var obj := found.value;
      ghost var here := world.s;
      if obj.marked {
        ok := Finalize(obj);
        Runs.ReachesFar(SteadyNext, start, here, world.s);
        return;
      }
      if !obj.spec.valid { return false; }
      if obj.spec.tenant == "" {
        ok := PatchStatus(obj.status, MissingTenantStatus(obj.spec.region));
        Runs.ReachesFar(SteadyNext, start, here, world.s);
        return;
      }
      ok := Attend(obj);
      Runs.ReachesFar(SteadyNext, start, here, world.s);
      if world.quiet && Placeable(start) { AttendedConverges(start, world.s, obj, ok); }
    }

    /** The pass from the finalizer on. */
    method Attend(obj: HubObject) returns (ok: bool)
      requires world.s.worker == AfterGet(obj) && !obj.marked && obj.spec.valid && obj.spec.tenant != ""
      modifies world
      ensures world.s.worker == None && Reaches(old(world.s), world.s)
      ensures world.quiet && old(world.s).hub == Some(obj) ==> Attended(old(world.s), world.s, obj, ok)
      ensures world.quiet && old(world.s).hub == Some(obj) && Converged(old(world.s)) ==>
                world.s == old(world.s).(worker := None) && world.writes == old(world.writes)
    {
      ghost var start := world.s;
      ghost var here := world.s;
      Runs.ReachesItself(SteadyNext, start);
      var seen := obj.status;
      if !obj.finalizer {
        var patched;
        patched, seen := AddFinalizer(obj.spec);
        Runs.ReachesFar(SteadyNext, start, here, world.s);
        if !patched { return false; }
        here := world.s;
      }
      var engaged, cluster;
      ok, engaged, cluster := SpokeFor(obj.spec, seen);
      Runs.ReachesFar(SteadyNext, start, here, world.s);
      if !ok { return; }
      here := world.s;
      if !engaged {
        ok := PatchStatus(seen, UnschedulableStatus(obj.spec.region));
        Runs.ReachesFar(SteadyNext, start, here, world.s);
        return;
      }
      ok := SyncClaim(obj.spec, seen, cluster);
      Runs.ReachesFar(SteadyNext, start, here, world.s);
      if !ok { return; }
      here := world.s;
      ok := SyncStatus(obj.spec, seen, cluster);
      Runs.ReachesFar(SteadyNext, start, here, world.s);
    }

    /** The patch that adds the finalizer; its answer refreshes the pass's copy. */
    method AddFinalizer(spec: Spec) returns (ok: bool, seen: Option<Status>)
      requires world.s.worker == Some(Pc.AddFinalizer(spec))
      modifies world
      ensures Reaches(old(world.s), world.s)
      ensures world.s.worker == if ok then Some(ListProfiles(spec, seen)) else None
      ensures world.quiet && old(world.s).hub.Some? && !old(world.s).hub.value.marked ==>
                && ok && seen == old(world.s).hub.value.status
                && world.s == old(world.s).(hub := Some(old(world.s).hub.value.(finalizer := true)),
                   worker := world.s.worker)
    {
      var served;
      ok, served := world.Issue(PatchFinalizer);
      seen := if ok then world.s.worker.value.seen else None;
    }

    /** clusterNameFor and GetCluster, for a pass that is not finalizing. */
    method SpokeFor(spec: Spec, seen: Option<Status>) returns (ok: bool, found: bool, cluster: string)
      requires world.s.worker == Some(ListProfiles(spec, seen))
      modifies world
      ensures Reaches(old(world.s), world.s)
      ensures !ok ==> world.s.worker == None
      ensures ok && found ==> world.s.worker == Some(GetClaim(spec, seen, cluster))
      ensures ok && !found ==> world.s.worker == StatusTail(seen, UnschedulableStatus(spec.region))
      ensures world.quiet ==> ok && world.s == old(world.s).(worker := world.s.worker)
      ensures world.quiet && spec.valid && spec.tenant != "" ==>
                (if found then Some(Place(cluster, spec.tenant)) else None) == Home(old(world.s), spec)
      ensures world.writes == old(world.writes)
    {
      ghost var start := world.s;
      cluster, found := "", false;
      var served;
      ok, served := world.Issue(ListProfilesCall);
      if !ok { return; }
      var resolved := ClusterNameFor(served.profiles, regionLabel, spec.region);
      if resolved.None? { return; }
      cluster := resolved.value;
      ghost var here := world.s;
      ok, served := world.Issue(LookUpCluster(cluster));
      Runs.ReachesFar(SteadyNext, start, here, world.s);
      found := ok && cluster in served.engaged;
    }

    method SyncClaim(spec: Spec, seen: Option<Status>, cluster: string) returns (ok: bool)
      requires world.s.worker == Some(GetClaim(spec, seen, cluster))
      modifies world
      ensures Reaches(old(world.s), world.s)
      ensures world.s.worker == if ok then Some(ReadClaim(spec, seen, cluster)) else None
      ensures world.quiet ==>
                var p := Place(cluster, spec.tenant);
                && ok && world.s == old(world.s).(
                   claims := if p in old(world.s).claims then old(world.s).claims
                             else old(world.s).claims[p := SpokeClaim(true, "", None, false)],
                   worker := world.s.worker)
                && (p in old(world.s).claims ==> world.writes == old(world.writes))
    {
      ghost var start := world.s;
      var served;
      ok, served := world.Issue(GetClaimAt(Place(cluster, spec.tenant)));
      if !ok || Place(cluster, spec.tenant) in served.claims { return; }
      ghost var here := world.s;
      ok, served := world.Issue(NewClaim(Place(cluster, spec.tenant)));
      Runs.ReachesFar(SteadyNext, start, here, world.s);
    }

    method SyncStatus(spec: Spec, seen: Option<Status>, cluster: string) returns (ok: bool)
      requires world.s.worker == Some(ReadClaim(spec, seen, cluster))
      modifies world
      ensures world.s.worker == None && Reaches(old(world.s), world.s)
      ensures world.quiet && old(world.s).hub.Some? ==>
                var status := StatusFor(old(world.s), cluster, spec);
                && ok && world.writes == old(world.writes) + (if seen == Some(status) then 0 else 1)
                && world.s == old(world.s).(worker := None, hub := Patched(old(world.s).hub, seen, status))
                && Reports(old(world.s), cluster, spec, status)
    {
      ghost var start := world.s;
      StatusForReports(start, cluster, spec);
      var claim;
      ok, claim := ObserveClaim(spec, seen, cluster);
      if !ok { return; }
      var status := ReadyStatus(Request(world.s.name, world.s.namespace, spec.region, spec.tenant), claim);
      ghost var here := world.s;
      ok := PatchStatus(seen, status);
      Runs.ReachesFar(SteadyNext, start, here, world.s);
    }

    /** The reads of syncStatus: the claim, and its ConfigMap once it is Bound. */
    method ObserveClaim(spec: Spec, seen: Option<Status>, cluster: string) returns (ok: bool, claim: Claim)
      requires world.s.worker == Some(ReadClaim(spec, seen, cluster))
      modifies world
      ensures Reaches(old(world.s), world.s) && world.writes == old(world.writes)
      ensures world.s.worker == if ok then StatusTail(seen, StatusOf(RequestOf(world.s, spec), claim)) else None
      ensures world.quiet ==> ok && claim == View(old(world.s).claims, Place(cluster, spec.tenant))
      ensures world.quiet ==> world.s == old(world.s).(worker := world.s.worker)
    {
      ghost var start := world.s;
      var p := Place(cluster, spec.tenant);
      var served;
      ok, served := world.Issue(GetClaimAt(p));
      claim := NO_CLAIM;
      if !ok { return; }
      if p in served.claims { claim := Claim(served.claims[p].phase, "", ""); }
      if p in served.claims && claim.phase == BOUND {
        ghost var here := world.s;
        ok, served := world.Issue(GetConfigAt(p));
        Runs.ReachesFar(SteadyNext, start, here, world.s);
        claim := ReadConfigMap(served.claims, p);
      }
    }

    method PatchStatus(seen: Option<Status>, status: Status) returns (ok: bool)
      requires world.s.worker == StatusTail(seen, status)
      modifies world
      ensures world.s.worker == None && Reaches(old(world.s), world.s)
      ensures world.quiet && old(world.s).hub.Some? ==>
                && ok && world.writes == old(world.writes) + (if seen == Some(status) then 0 else 1)
                && world.s == old(world.s).(worker := None, hub := Patched(old(world.s).hub, seen, status))
    {
      if seen == Some(status) {
        Runs.ReachesItself(SteadyNext, world.s);
        return true;
      }
      var served;
      ok, served := world.Issue(WriteStatus(status));
    }

    /** Deletion: asks for the claim's removal and lets go only once it is seen
        gone; a request without a home is let go at once. Undisturbed, it lets
        go with a claim left behind exactly when a claim of the request is
        there and none is where the request now points to: the placement has
        changed since, or there is none to find. */
    method Finalize(obj: HubObject) returns (ok: bool)
      requires obj.marked && world.s.worker == AfterGet(obj)
      modifies world
      ensures world.s.worker == None && Reaches(old(world.s), world.s)
      ensures world.quiet && old(world.s).hub == Some(obj) && obj.finalizer ==>
                var home := Home(old(world.s), obj.spec);
                && ok && world.s.claims.Keys == old(world.s).claims.Keys
                && (if home.Some? && home.value in old(world.s).claims
                    then world.s.hub == Some(obj) && world.s.claims[home.value].deleting
                    else world.s.hub == None)
      ensures world.quiet && old(world.s).hub == Some(obj) && obj.finalizer ==>
                var home := Home(old(world.s), obj.spec);
                (world.s.hub.None? && exists p :: p in world.s.claims && world.s.claims[p].ours)
                <==> (exists p :: p in old(world.s).claims && old(world.s).claims[p].ours)
                     && (home.Some? ==> home.value !in old(world.s).claims)
      ensures world.quiet && old(world.s).hub == Some(obj) && obj.finalizer ==>
                ok && Released(old(world.s), world.s, obj.spec)
      ensures world.quiet && !obj.finalizer ==> ok && world.s == old(world.s)
    {
      ghost var start := world.s;
      Runs.ReachesItself(SteadyNext, start);
      if !obj.finalizer { return true; }
      if obj.spec.valid && obj.spec.tenant != "" {
        var found, cluster;
        ok, found, cluster := LastSpokeFor(obj.spec);
        if !ok { return; }
        if found {
          ghost var placed := world.s;
          var gone;
          ok, gone := RemoveClaim(obj.spec, cluster);
          Runs.ReachesFar(SteadyNext, start, placed, world.s);
          if !ok || !gone { return; }
        }
      }
      ghost var here := world.s;
      var served;
      ok, served := world.Issue(DropFinalizer);
      Runs.ReachesFar(SteadyNext, start, here, world.s);
    }

    /** SpokeFor once more, for a pass that is finalizing. */
    method LastSpokeFor(spec: Spec) returns (ok: bool, found: bool, cluster: string)
      requires world.s.worker == Some(FinProfiles(spec))
      modifies world
      ensures Reaches(old(world.s), world.s)
      ensures !ok ==> world.s.worker == None
      ensures ok ==> world.s.worker == Some(if found then DeleteClaim(spec, cluster) else Release)
      ensures world.quiet ==> ok && world.s == old(world.s).(worker := world.s.worker)
      ensures world.quiet && spec.valid && spec.tenant != "" ==>
                (if found then Some(Place(cluster, spec.tenant)) else None) == Home(old(world.s), spec)
    {
      ghost var start := world.s;
      cluster, found := "", false;
      var served;
      ok, served := world.Issue(ListProfilesCall);
      if !ok { return; }
      var resolved := ClusterNameFor(served.profiles, regionLabel, spec.region);
      if resolved.None? { return; }
      cluster := resolved.value;
      ghost var here := world.s;
      ok, served := world.Issue(LookUpCluster(cluster));
      Runs.ReachesFar(SteadyNext, start, here, world.s);
      found := ok && cluster in served.engaged;
    }

    /** deleteClaim: whether the claim is gone, by the uncached reader. */
    method RemoveClaim(spec: Spec, cluster: string) returns (ok: bool, gone: bool)
      requires world.s.worker == Some(DeleteClaim(spec, cluster))
      modifies world
      ensures Reaches(old(world.s), world.s)
      ensures world.s.worker == if ok && gone then Some(Release) else None
      ensures world.quiet ==>
                var p := Place(cluster, spec.tenant);
                && ok && (gone <==> p !in old(world.s).claims)
                && world.s == old(world.s).(
                   claims := if gone then old(world.s).claims
                             else old(world.s).claims[p := old(world.s).claims[p].(deleting := true)],
                   worker := world.s.worker)
    {
      ghost var start := world.s;
      gone := false;
      var served;
      ok, served := world.Issue(RemoveClaimAt(Place(cluster, spec.tenant)));
      if !ok { return; }
      ghost var here := world.s;
      ok, served := world.Issue(GetClaimAt(Place(cluster, spec.tenant)));
      Runs.ReachesFar(SteadyNext, start, here, world.s);
      gone := ok && Place(cluster, spec.tenant) !in served.claims;
    }
  }

  /** Two passes with nothing in their way: the first converges, the second
      issues no write and leaves the state the first one reached. */
  method TwoPasses(r: RequestReconciler) returns (reached: State, secondWrites: int)
    requires r.world.s.worker.None? && r.world.quiet && Placeable(r.world.s)
    modifies r.world
    ensures Converged(reached) && secondWrites == 0 && r.world.s == reached
  {
    var _ := r.Reconcile();
    reached := r.world.s;
    var writes := r.world.writes;
    var _ := r.Reconcile();
    secondWrites := r.world.writes - writes;
  }

  // ---------- StatusReconciler ----------

  class StatusReconciler {
    const world: World
    const regionLabel: string

    constructor (world: World, regionLabel: string)
      ensures this.world == world && this.regionLabel == regionLabel
    {
      this.world := world;
      this.regionLabel := regionLabel;
    }

    /** One pass for an event on the claim at place. It fails without an engaged
        cluster and ends at once for a claim that is gone or carries no owner
        labels. Undisturbed, from the cluster that serves the request, it
        leaves the status the spoke calls for; from any other it writes nothing. */
    method Reconcile(p: nat, place: Place) returns (ok: bool)
      requires p !in world.s.passes
      modifies world
      ensures p !in world.s.passes && Reaches(old(world.s), world.s)
      ensures world.quiet ==> var s := old(world.s);
                && ok == (place.cluster in s.engaged)
                && world.s == s.(hub := if place.cluster in s.engaged && Reported(s, place).Some?
                                        then Reported(s, place) else s.hub)
                && (Reported(s, place).None? ==> world.writes == old(world.writes))
                && if ok then Told(s, world.s, place) else world.s == s
    {
      ghost var start := world.s;
      world.Interfere(StatusPass(p));
      var reply := world.Reply();
      if reply != Ok || place.cluster !in world.s.engaged { return false; }
      ghost var here := world.s;
      world.Interfere(StatusPass(p));
      Runs.ReachesFar(SteadyNext, start, here, world.s);
      reply := world.Reply();
      if reply != Ok { return false; }
      if place !in world.s.claims || !world.s.claims[place].ours { return true; }
      here := world.s;
      ok := Report(p, place);
      Runs.ReachesFar(SteadyNext, start, here, world.s);
    }

    /** What an undisturbed pass does about an event on the claim at place, in
        plain terms: the status of its request, if this cluster serves it, and nothing else. */
    static predicate Told(s: State, t: State, place: Place) {
      if place !in s.claims || !s.claims[place].ours || s.hub.None? || !s.hub.value.spec.valid ||
         !Offers(s.profiles, s.hub.value.spec.region, place.cluster)
      then t == s
      else
        && t.hub.Some? && t.hub.value.status.Some?
        && t == s.(hub := Some(s.hub.value.(status := t.hub.value.status)))
        && Reports(s, place.cluster, s.hub.value.spec, t.hub.value.status.value)
    }

    /** The request with the spoke's status, if the claim at place is one to report. */
    static function Reported(s: State, place: Place): Option<HubObject> {
      if place !in s.claims || !s.claims[place].ours || s.hub.None? || !s.hub.value.spec.valid then None
      else if Resolve(s.profiles, s.hub.value.spec.region) != Some(place.cluster) then None
      else Some(s.hub.value.(status := Some(StatusFor(s, place.cluster, s.hub.value.spec))))
    }

    lemma ReportedTells(s: State, place: Place)
      ensures Told(s, s.(hub := if Reported(s, place).Some? then Reported(s, place) else s.hub), place)
    {
      if s.hub.Some? {
        ResolveMeans(s.profiles, s.hub.value.spec.region);
        StatusForReports(s, place.cluster, s.hub.value.spec);
      }
    }

    /** The pass from the owner labels on. */
    method Report(p: nat, place: Place) returns (ok: bool)
      requires p !in world.s.passes && place in world.s.claims && world.s.claims[place].ours
      modifies world
      ensures p !in world.s.passes && Reaches(old(world.s), world.s)
      ensures world.quiet ==> var s := old(world.s);
                && ok && world.s == s.(hub := if Reported(s, place).Some? then Reported(s, place) else s.hub)
                && (Reported(s, place).None? ==> world.writes == old(world.writes))
                && Told(s, world.s, place)
    {
      ghost var start := world.s;
      ReportedTells(start, place);
      var found;
      ok, found := Fetch(p, place);
      if found.None? { return; }
      var obj := found.value;
      ghost var here := world.s;
      ok := SyncStatus(p, place.cluster, obj.spec, obj.status);
      Runs.ReachesFar(SteadyNext, start, here, world.s);
    }

    /** The hub's request, unless it does not parse or this cluster does not serve its region. */
    method Fetch(p: nat, place: Place) returns (ok: bool, found: Option<HubObject>)
      requires p !in world.s.passes && place in world.s.claims && world.s.claims[place].ours
      modifies world
      ensures Reaches(old(world.s), world.s) && world.writes == old(world.writes)
      ensures PassOf(world.s, p) == match found
                                    case None => None
                                    case Some(obj) => Some(StatusClaim(place.cluster, obj.spec, obj.status))
      ensures world.quiet ==>
                var s := old(world.s);
                && ok && world.s == s.(passes := Put(s.passes, p, PassOf(world.s, p)))
                && found == if Reported(s, place).Some? then s.hub else None
    {
      ghost var start := world.s;
      Begin(p, place);
      ghost var here := world.s;
      ok, found := GetOwner(p, place.cluster);
      Runs.ReachesFar(SteadyNext, start, here, world.s);
      if found.None? { return; }
      here := world.s;
      var serves;
      ok, serves := Serves(p, place.cluster, found.value.spec, found.value.status);
      Runs.ReachesFar(SteadyNext, start, here, world.s);
      if !serves { found := None; }
    }

    /** No call: the pass has the claim's labels in hand. */
    method Begin(p: nat, place: Place)
      requires p !in world.s.passes && place in world.s.claims && world.s.claims[place].ours
      modifies world`s
      ensures Reaches(old(world.s), world.s)
      ensures world.s == old(world.s).(passes := old(world.s).passes[p := StatusGet(place.cluster)])
    {
      Runs.ReachesItself(SteadyNext, world.s);
      Runs.ReachesNext(SteadyNext, world.s, world.s, Pass(p, StatusBegin(place)),
          Step(world.s, Pass(p, StatusBegin(place))));
      world.s := StatusStep(world.s, p, StatusBegin(place));
    }

    method GetOwner(p: nat, cluster: string) returns (ok: bool, found: Option<HubObject>)
      requires PassOf(world.s, p) == Some(StatusGet(cluster))
      modifies world
      ensures Reaches(old(world.s), world.s) && world.writes == old(world.writes)
      ensures PassOf(world.s, p) == match found
                                    case None => None
                                    case Some(obj) => Some(StatusProfiles(cluster, obj.spec, obj.status))
      ensures world.quiet ==>
                var s := old(world.s);
                && ok && world.s == s.(passes := Put(s.passes, p, PassOf(world.s, p)))
                && found == if s.hub.Some? && s.hub.value.spec.valid then s.hub else None
    {
      var served;
      ok, served := world.IssueStatus(p, GetRequest);
      found := if ok && served.hub.Some? && served.hub.value.spec.valid then served.hub else None;
    }

    /** Whether the cluster is the one clusterNameFor gives. */
    method Serves(p: nat, cluster: string, spec: Spec, seen: Option<Status>) returns (ok: bool, serves: bool)
      requires PassOf(world.s, p) == Some(StatusProfiles(cluster, spec, seen))
      modifies world
      ensures Reaches(old(world.s), world.s) && world.writes == old(world.writes)
      ensures PassOf(world.s, p) == if serves then Some(StatusClaim(cluster, spec, seen)) else None
      ensures world.quiet ==>
                var s := old(world.s);
                && ok && world.s == s.(passes := Put(s.passes, p, PassOf(world.s, p)))
                && serves == (Resolve(s.profiles, spec.region) == Some(cluster))
    {
      serves := false;
      var served;
      ok, served := world.IssueStatus(p, ListProfilesCall);
      if !ok { return; }
      var serving := ClusterNameFor(served.profiles, regionLabel, spec.region);
      serves := serving == Some(cluster);
    }

    /** syncStatus, as the status controller calls it. */
    method SyncStatus(p: nat, cluster: string, spec: Spec, seen: Option<Status>) returns (ok: bool)
      requires PassOf(world.s, p) == Some(StatusClaim(cluster, spec, seen))
      modifies world
      ensures p !in world.s.passes && Reaches(old(world.s), world.s)
      ensures world.quiet && old(world.s).hub.Some? ==>
                var status := StatusFor(old(world.s), cluster, spec);
                && ok
                && world.s == old(world.s).(hub := Patched(old(world.s).hub, seen, status),
                                            passes := old(world.s).passes - {p})
                && Reports(old(world.s), cluster, spec, status)
    {
      ghost var start := world.s;
      var claim;
      ok, claim := ObserveClaim(p, cluster, spec, seen);
      StatusForReports(start, cluster, spec);
      if !ok { return; }
      var status := ReadyStatus(RequestOf(world.s, spec), claim);
      if seen == Some(status) { return; }
      ghost var here := world.s;
      var served;
      ok, served := world.IssueStatus(p, WriteStatus(status));
      Runs.ReachesFar(SteadyNext, start, here, world.s);
    }

    /** The reads of syncStatus once more, for a status pass. */
    method ObserveClaim(p: nat, cluster: string, spec: Spec, seen: Option<Status>) returns (ok: bool, claim: Claim)
      requires PassOf(world.s, p) == Some(StatusClaim(cluster, spec, seen))
      modifies world
      ensures Reaches(old(world.s), world.s) && world.writes == old(world.writes)
      ensures PassOf(world.s, p) == if ok then StatusEnd(seen, StatusOf(RequestOf(world.s, spec), claim)) else None
      ensures world.quiet ==> ok && claim == View(old(world.s).claims, Place(cluster, spec.tenant))
      ensures world.quiet ==> world.s == old(world.s).(passes := Put(old(world.s).passes, p, PassOf(world.s, p)))
    {
      ghost var start := world.s;
      var place := Place(cluster, spec.tenant);
      var served;
      ok, served := world.IssueStatus(p, GetClaimAt(place));
      claim := NO_CLAIM;
      if !ok { return; }
      if place in served.claims { claim := Claim(served.claims[place].phase, "", ""); }
      if place in served.claims && claim.phase == BOUND {
        ghost var here := world.s;
        ok, served := world.IssueStatus(p, GetConfigAt(place));
        Runs.ReachesFar(SteadyNext, start, here, world.s);
        claim := ReadConfigMap(served.claims, place);
      }
    }
  }
}
