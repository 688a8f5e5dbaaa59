/** The request controller itself, statement by statement, against a world it
    shares with everybody else. Every client call may be preceded by any steady
    steps of others and may fail; each method is proved to walk the protocol,
    and an undisturbed pass to converge. */
module VmReconciler {
  import opened Options
  import opened Text
  import opened VmDomain
  import opened VmProtocol
  import opened VmSafety
  import Runs

  // ---------- Reachability ----------

  /** Where an event leads that may happen and is steady. */
  function SteadyNext(s: State, e: Event): Option<State> {
    if Enabled(s, e) && Steady(s, e) then Some(Step(s, e)) else None
  }

  ghost predicate Reaches(s: State, t: State) { Runs.Reaches(SteadyNext, s, t) }

  /** Reaching is by steady runs. */
  lemma {:induction false} SteadyRunsReach(s: State, es: seq<Event>, t: State)
    ensures Runs.Leads(SteadyNext, s, es, t) <==> SteadyRun(s, es) && Possible(s, es) && Run(s, es) == t
    decreases |es|
  {
    if es != [] && Enabled(s, es[0]) && Steady(s, es[0]) { SteadyRunsReach(Step(s, es[0]), es[1..], t); }
  }

  /** Whatever the reconcilers and everybody else do, the invariant of VmSafety holds. */
  lemma ReachesSafely(s: State, t: State)
    requires Inv(s) && Reaches(s, t)
    ensures Inv(t)
  {
    forall u, e | Inv(u) && SteadyNext(u, e).Some? ensures Inv(SteadyNext(u, e).value) { StepKeeps(u, e); }
    Runs.ReachesKeeps(SteadyNext, u => Inv(u), s, t);
  }

  // ---------- Client calls ----------

  /** What a controller asks of an API server or of the fleet. */
  datatype ClientCall =
    | GetRequest(key: Key)
    | PatchFinalizer(key: Key)
    | DropFinalizer(key: Key)
    | WriteStatus(key: Key, status: Status)
    | LookUpCluster(cluster: string)
    | GetHubSecret(key: Key)
    | GetSecret(place: Place)
    | NewSecret(place: Place, owner: Key, data: Data)
    | SetSecretData(place: Place, data: Data)
    | RemoveSecret(place: Place)
    | ListOwned(cluster: string, namespace: string, owner: Key)
    | NewVm(place: Place, owner: Key)
    | RemoveVm(place: Place)
    | NoCall

  predicate IsWrite(call: ClientCall) {
    !call.GetRequest? && !call.LookUpCluster? && !call.GetHubSecret? && !call.GetSecret? && !call.ListOwned?
        && !call.NoCall?
  }

  function HubAfterCall(hub: map<Key, HubObject>, call: ClientCall): map<Key, HubObject> {
    match call
    case PatchFinalizer(k) => if k in hub then hub[k := hub[k].(finalizer := true)] else hub
    case DropFinalizer(k) =>
      if k !in hub then hub else if hub[k].marked then hub - {k} else hub[k := hub[k].(finalizer := false)]
    case WriteStatus(k, status) => if k in hub then hub[k := hub[k].(status := Some(status))] else hub
    case _ => hub
  }

  function VmsAfterCall(prompt: bool, vms: map<Place, Vm>, call: ClientCall): map<Place, Vm> {
    match call
    case NewVm(p, owner) => if p in vms then vms else vms[p := Vm(Some(owner), false, false)]
    case RemoveVm(p) =>
      if p !in vms then vms else if prompt then vms - {p} else vms[p := vms[p].(deleting := true)]
    case _ => vms
  }

  function SecretsAfterCall(secrets: map<Place, Secret>, call: ClientCall): map<Place, Secret> {
    match call
    case NewSecret(p, owner, data) => secrets[p := Secret(Some(owner), data)]
    case SetSecretData(p, data) => if p in secrets then secrets[p := secrets[p].(data := data)] else secrets
    case RemoveSecret(p) => secrets - {p}
    case _ => secrets
  }

  /** What an answered call does to the servers, whoever makes it. */
  function AfterCall(s: State, call: ClientCall): State {
    s.(hub := HubAfterCall(s.hub, call),
       vms := VmsAfterCall(s.prompt, s.vms, call),
       secrets := SecretsAfterCall(s.secrets, call))
  }

  /** The call a program point stands for. */
  function CallAt(k: Key, pc: Pc): ClientCall {
    match pc
    case AddFinalizer(_) => PatchFinalizer(k)
    case GetCluster(spec, _) => LookUpCluster(spec.region)
    case ReadHubSecret(spec, _) => GetHubSecret(Key(k.namespace, spec.secretName))
    case ReadSpokeSecret(spec, _, _) => GetSecret(SecretPlace(spec))
    case CreateSecret(spec, _, data) => NewSecret(SecretPlace(spec), k, data)
    case UpdateSecret(spec, _, data) => SetSecretData(SecretPlace(spec), data)
    case ListVMs(spec, _) => ListOwned(spec.region, spec.tenant, k)
    case Planning(_, _, _) => NoCall
    case Applying(spec, _, plan) =>
      if plan.create != [] then NewVm(VmPlace(spec, plan.create[0]), k)
      else if plan.delete != [] then RemoveVm(VmPlace(spec, plan.delete[0]))
      else NoCall
    case ListForStatus(spec, _) => ListOwned(spec.region, spec.tenant, k)
    case PatchStatus(status) => WriteStatus(k, status)
    case FinCluster(spec) => LookUpCluster(spec.region)
    case FinList(spec) => ListOwned(spec.region, spec.tenant, k)
    case FinVMs(spec, names) => if names == [] then NoCall else RemoveVm(VmPlace(spec, names[0]))
    case FinSecret(spec) => RemoveSecret(SecretPlace(spec))
    case Release => DropFinalizer(k)
  }

  function StatusCallAt(pc: StatusPc): ClientCall {
    match pc
    case StatusGet(_, k) => GetRequest(k)
    case StatusList(cluster, k, spec, _) => ListOwned(cluster, spec.tenant, k)
    case StatusPatch(k, status) => WriteStatus(k, status)
  }

  /** The protocol's effects are those of the calls the controllers make. */
  lemma EffectIsCall(s: State, k: Key, pc: Pc)
    ensures Effect(s, k, pc) == AfterCall(s, CallAt(k, pc))
  {
    HubEffectIsCall(s.hub, k, pc);
    VmEffectIsCall(s.prompt, s.vms, k, pc);
    SecretEffectIsCall(s.secrets, k, pc);
  }

  lemma HubEffectIsCall(hub: map<Key, HubObject>, k: Key, pc: Pc)
    ensures HubEffect(hub, k, pc) == HubAfterCall(hub, CallAt(k, pc))
  {
  }

  lemma VmEffectIsCall(prompt: bool, vms: map<Place, Vm>, k: Key, pc: Pc)
    ensures ChangeVms(prompt, vms, k, VmChangeOf(pc)) == VmsAfterCall(prompt, vms, CallAt(k, pc))
  {
  }

  lemma SecretEffectIsCall(secrets: map<Place, Secret>, k: Key, pc: Pc)
    ensures SecretEffect(secrets, k, pc) == SecretsAfterCall(secrets, CallAt(k, pc))
  {
  }

  lemma StatusEffectIsCall(s: State, p: nat, reply: Reply)
    requires p in s.passes && reply != Failed
    ensures StatusStep(s, p, StatusCall(reply)).(passes := s.passes) == AfterCall(s, StatusCallAt(s.passes[p]))
  {
  }

  // ---------- The world ----------

  function At(s: State, k: Key): Option<Pc> { if k in s.workers then Some(s.workers[k]) else None }

  function PassAt(s: State, p: nat): Option<StatusPc> { if p in s.passes then Some(s.passes[p]) else None }

  /** Whose pass is making calls. */
  datatype Actor = Requests(key: Key) | StatusPass(pass: nat)

  predicate Unmoved(s: State, t: State, actor: Actor) {
    match actor
    case Requests(k) => At(t, k) == At(s, k)
    case StatusPass(p) => PassAt(t, p) == PassAt(s, p)
  }

  predicate MovedBy(e: Event, actor: Actor) {
    match actor
    case Requests(k) => Moves(e, k)
    case StatusPass(p) => e.Pass? && e.pass == p
  }

  lemma ActorUnmoved(s: State, e: Event, actor: Actor)
    requires Enabled(s, e) && !MovedBy(e, actor)
    ensures Unmoved(s, Step(s, e), actor)
  {
    if actor.Requests? { StepWorkers(s, e, actor.key); }
    else if e.Worker? { ActFrame(s, e.key, e.act); }
  }

  /** The API servers as the controller meets them. A quiet world leaves the
      controller alone and answers every call it can. */
  class World {
    var s: State
    var writes: nat
    const quiet: bool

    constructor (s: State, quiet: bool)
      ensures this.s == s && this.quiet == quiet && writes == 0
    {
      this.s := s;
      this.quiet := quiet;
      writes := 0;
    }

    /** Any number of steady steps by anyone but the actor. */
    method Interfere(actor: Actor)
      modifies this`s
      ensures Reaches(old(s), s) && Unmoved(old(s), s, actor)
      ensures quiet ==> s == old(s)
    {
      Runs.ReachesItself(SteadyNext, s);
      var n: nat := *;
      if quiet { n := 0; }
      while n > 0
        invariant Reaches(old(s), s) && Unmoved(old(s), s, actor)
        invariant quiet ==> n == 0 && s == old(s)
      {
        var e: Event := *;
        if Enabled(s, e) && Steady(s, e) && !MovedBy(e, actor) {
          Runs.ReachesNext(SteadyNext, old(s), s, e, Step(s, e));
          ActorUnmoved(s, e, actor);
          s := Step(s, e);
        }
        n := n - 1;
      }
    }

    method Reply() returns (reply: Reply)
      ensures quiet ==> reply == Ok
    {
      reply := *;
      if quiet { reply := Ok; }
    }

    /** One client call of the pass over k. `served` is the state the server
        answered in; ok tells whether the caller got an answer. */
    method Issue(k: Key, call: ClientCall) returns (ok: bool, served: State)
      requires k in s.workers && !NeedsListing(s.workers[k]) && call == CallAt(k, s.workers[k])
      modifies this
      ensures Reaches(old(s), s) && At(served, k) == At(old(s), k)
      ensures ok ==> Accepts(served, k, served.workers[k]) && s == CallStep(served, k, Ok)
      ensures ok ==> s == AfterCall(served, call).(workers := s.workers)
      ensures !ok ==> At(s, k) == None
      ensures quiet ==> served == old(s) && ok == Accepts(served, k, served.workers[k]) && s == CallStep(old(s), k, Ok)
      ensures writes == old(writes) + if IsWrite(call) then 1 else 0
    {
      Interfere(Requests(k));
      served := s;
      EffectIsCall(s, k, s.workers[k]);
      var reply := Reply();
      Runs.ReachesNext(SteadyNext, old(s), s, Worker(k, Call(reply)), Step(s, Worker(k, Call(reply))));
      ok := reply == Ok && Accepts(s, k, s.workers[k]);
      s := CallStep(s, k, reply);
      if IsWrite(call) { writes := writes + 1; }
    }

    method GetRequest(k: Key) returns (ok: bool, obj: Option<HubObject>)
      requires k !in s.workers
      modifies this`s
      ensures Reaches(old(s), s)
      ensures ok && obj.Some? ==> At(s, k) == AfterGet(obj.value)
      ensures !ok || obj.None? ==> At(s, k) == None
      ensures quiet ==> ok && (obj.Some? <==> k in old(s).hub) && (obj.Some? ==> obj.value == old(s).hub[k])
      ensures quiet ==> s == Goto(old(s), k, if obj.Some? then AfterGet(obj.value) else None)
    {
      Interfere(Requests(k));
      obj := if k in s.hub then Some(s.hub[k]) else None;
      ok := *;
      if quiet { ok := true; }
      if ok {
        Runs.ReachesNext(SteadyNext, old(s), s, Worker(k, Begin), Step(s, Worker(k, Begin)));
        s := ActStep(s, k, Begin);
      }
    }

    /** A list by owner labels; the order is the server's. */
    method ListVMs(k: Key, call: ClientCall) returns (ok: bool, names: seq<string>)
      requires k in s.workers && (s.workers[k].ListVMs? || s.workers[k].FinList?) && call == CallAt(k, s.workers[k])
      modifies this`s
      ensures Reaches(old(s), s)
      ensures ok ==> Distinct(names) && At(s, k) == AfterList(old(s).workers[k], names)
      ensures !ok ==> At(s, k) == None
      ensures quiet ==> ok && s == Goto(old(s), k, AfterList(old(s).workers[k], names))
      ensures quiet ==> Elements(names) == OwnedNames(old(s), call.cluster, call.namespace, call.owner)
    {
      Interfere(Requests(k));
      var reply := Reply();
      names := [];
      if reply == Ok {
        names := Enumerate(OwnedNames(s, call.cluster, call.namespace, call.owner));
        ok := true;
        Runs.ReachesNext(SteadyNext, old(s), s, Worker(k, Listed(names)), Step(s, Worker(k, Listed(names))));
        s := ActStep(s, k, Listed(names));
      } else {
        ok := false;
        Runs.ReachesNext(SteadyNext, old(s), s, Worker(k, Call(Failed)), Step(s, Worker(k, Call(Failed))));
        s := CallStep(s, k, Failed);
      }
    }

    method Enumerate(names: set<string>) returns (order: seq<string>)
      ensures Distinct(order) && Elements(order) == names
    {
      order := [];
      var rest := names;
      while rest != {}
        invariant rest <= names && Distinct(order) && Elements(order) == names - rest
      {
        var name :| name in rest;
        order := order + [name];
        rest := rest - {name};
      }
    }

    /** One client call of a status pass. */
    method IssueStatus(p: nat, call: ClientCall) returns (ok: bool, served: State)
      requires p in s.passes && call == StatusCallAt(s.passes[p])
      modifies this
      ensures Reaches(old(s), s) && PassAt(served, p) == PassAt(old(s), p)
      ensures PassAt(s, p) == if ok then StatusNext(served, old(s).passes[p]) else None
      ensures ok ==> s == AfterCall(served, call).(passes := s.passes)
      ensures quiet ==> ok && served == old(s) && s == StatusStep(old(s), p, StatusCall(Ok))
      ensures writes == old(writes) + if IsWrite(call) then 1 else 0
    {
      Interfere(StatusPass(p));
      assert PassAt(s, p) == PassAt(old(s), p);
      served := s;
      var reply := Reply();
      Runs.ReachesNext(SteadyNext, old(s), s, Pass(p, StatusCall(reply)), Step(s, Pass(p, StatusCall(reply))));
      ok := reply == Ok;
      if ok { StatusEffectIsCall(s, p, reply); }
      s := StatusStep(s, p, StatusCall(reply));
      if IsWrite(call) { writes := writes + 1; }
    }

    /** No call: the pass has made up its mind. */
    method Decide(k: Key, plan: Plan)
      requires k in s.workers && s.workers[k].Planning?
      requires IsPlan(RequestOf(k, s.workers[k].spec), Elements(s.workers[k].existing), plan)
      modifies this`s
      ensures Reaches(old(s), s) && At(s, k) == Some(AfterPlan(old(s).workers[k].spec, old(s).workers[k].seen, plan))
      ensures quiet ==> s == Goto(old(s), k, At(s, k))
    {
      Interfere(Requests(k));
      Runs.ReachesNext(SteadyNext, old(s), s, Worker(k, Planned(plan)), Step(s, Worker(k, Planned(plan))));
      s := ActStep(s, k, Planned(plan));
    }
  }

  // ---------- Undisturbed passes ----------

  /** What a pass needs to succeed: a live request on an engaged cluster, its
      Secret on the hub, deletions that take effect, and no stranger's VM under a desired name. */
  predicate Placeable(s: State, k: Key) {
    && k in s.hub && !s.hub[k].marked && s.hub[k].spec.valid && s.hub[k].spec.tenant != ""
    && s.hub[k].spec.region in s.engaged && Key(k.namespace, s.hub[k].spec.secretName) in s.hubSecrets
    && s.prompt && NoStrangers(s.vms, k, s.hub[k].spec)
  }

  predicate NoStrangers(vms: map<Place, Vm>, k: Key, spec: Spec) {
    forall p :: p in vms && p.cluster == spec.region && p.namespace == spec.tenant
        && p.name in DesiredNames(RequestOf(k, spec))
      ==> vms[p].owner == Some(k)
  }

  predicate Synced(s: State, k: Key, spec: Spec) {
    var source := Key(k.namespace, spec.secretName);
    source in s.hubSecrets && SecretPlace(spec) in s.secrets
        && s.secrets[SecretPlace(spec)].data == s.hubSecrets[source]
  }

  predicate Scaled(s: State, k: Key, spec: Spec) {
    OwnedNames(s, spec.region, spec.tenant, k) == DesiredNames(RequestOf(k, spec))
  }

  /** The fixpoint of Reconcile. */
  predicate Converged(s: State, k: Key) {
    && k in s.hub && s.hub[k].finalizer
    && Synced(s, k, s.hub[k].spec) && Scaled(s, k, s.hub[k].spec)
    && s.hub[k].status == Some(StatusFor(s, s.hub[k].spec.region, k, s.hub[k].spec))
  }

  /** Listings depend on the VMs alone. */
  lemma SameListing(s: State, t: State, k: Key, spec: Spec)
    requires s.vms == t.vms
    ensures OwnedNames(s, spec.region, spec.tenant, k) == OwnedNames(t, spec.region, spec.tenant, k)
    ensures StatusFor(s, spec.region, k, spec) == StatusFor(t, spec.region, k, spec)
  {
    assert ReadyNames(s, spec.region, spec.tenant, k) == ReadyNames(t, spec.region, spec.tenant, k);
  }

  /** The hub after patchStatus, by a pass whose copy shows the status seen. */
  function Patched(hub: map<Key, HubObject>, k: Key, seen: Option<Status>, status: Status): map<Key, HubObject> {
    if seen == Some(status) then hub else WithStatus(hub, k, status)
  }

  /** Writing the status that is there changes nothing. */
  lemma WritingItAgain(hub: map<Key, HubObject>, k: Key)
    requires k in hub
    ensures hub[k].status.Some? ==> WithStatus(hub, k, hub[k].status.value) == hub
  {
  }

  lemma GotoEnds(s: State, k: Key, pc: Option<Pc>)
    ensures Goto(s, k, pc).workers - {k} == s.workers - {k}
  {
  }

  /** Program points are no part of what has converged. */
  lemma SameFixpoint(s: State, t: State, k: Key)
    requires t == s.(workers := t.workers)
    ensures Placeable(s, k) <==> Placeable(t, k)
    ensures Converged(s, k) <==> Converged(t, k)
  {
    if k in s.hub { SameListing(s, t, k, s.hub[k].spec); }
  }

  /** The VMs once all of these were created; one that is there stays as it is. */
  function CreateVms(vms: map<Place, Vm>, k: Key, places: set<Place>): map<Place, Vm> {
    map p | p in vms.Keys + places :: if p in vms then vms[p] else Vm(Some(k), false, false)
  }

  lemma CreateNoVms(vms: map<Place, Vm>, k: Key, spec: Spec)
    ensures CreateVms(vms, k, Places(spec, Elements([]))) == vms
  {
    assert Places(spec, Elements([])) == {};
  }

  lemma CreateOneMore(vms: map<Place, Vm>, k: Key, spec: Spec, names: seq<string>, i: nat)
    requires i < |names|
    ensures CreateVm(CreateVms(vms, k, Places(spec, Elements(names[..i]))), VmPlace(spec, names[i]), k)
            == CreateVms(vms, k, Places(spec, Elements(names[..i + 1])))
  {
    var place := VmPlace(spec, names[i]);
    assert Elements(names[..i + 1]) == Elements(names[..i]) + {names[i]};
    assert Places(spec, Elements(names[..i + 1])) == Places(spec, Elements(names[..i])) + {place};
  }

  /** The VMs once all of these were asked to go. */
  function DeleteVms(prompt: bool, vms: map<Place, Vm>, gone: set<Place>): map<Place, Vm> {
    if prompt then vms - gone
    else map p | p in vms :: if p in gone then vms[p].(deleting := true) else vms[p]
  }

  function Places(spec: Spec, names: set<string>): set<Place> { set n | n in names :: VmPlace(spec, n) }

  lemma DeleteNoVms(prompt: bool, vms: map<Place, Vm>, spec: Spec)
    ensures DeleteVms(prompt, vms, Places(spec, Elements([]))) == vms
  {
    assert Places(spec, Elements([])) == {};
  }

  lemma DeleteOneMore(prompt: bool, vms: map<Place, Vm>, spec: Spec, names: seq<string>, i: nat)
    requires i < |names|
    ensures DeleteVm(prompt, DeleteVms(prompt, vms, Places(spec, Elements(names[..i]))), VmPlace(spec, names[i]))
            == DeleteVms(prompt, vms, Places(spec, Elements(names[..i + 1])))
  {
    var place := VmPlace(spec, names[i]);
    assert Elements(names[..i + 1]) == Elements(names[..i]) + {names[i]};
    assert Places(spec, Elements(names[..i + 1])) == Places(spec, Elements(names[..i])) + {place};
  }

  /** The listed VMs are the ones at the listed names. */
  lemma ListedPlaces(s: State, k: Key, spec: Spec)
    requires spec.tenant != ""
    ensures Places(spec, OwnedNames(s, spec.region, spec.tenant, k)) == Listing(s, spec.region, spec.tenant, k)
  {
    forall p | p in Listing(s, spec.region, spec.tenant, k)
      ensures p in Places(spec, OwnedNames(s, spec.region, spec.tenant, k))
    {
      assert p == VmPlace(spec, p.name) && p.name in OwnedNames(s, spec.region, spec.tenant, k);
    }
  }

  /** If nothing was to scale, there is nothing to report either. */
  lemma DeployedRests(start: State, scaled: State, k: Key)
    requires Converged(start, k) && scaled.vms == start.vms
    ensures start.hub[k].status == Some(StatusFor(scaled, start.hub[k].spec.region, k, start.hub[k].spec))
  {
    SameListing(start, scaled, k, start.hub[k].spec);
  }

  // ---------- What scaling does ----------

  function VmAt(vms: map<Place, Vm>, p: Place): Option<Vm> { if p in vms then Some(vms[p]) else None }

  predicate Wanted(k: Key, spec: Spec, name: string) {
    exists i :: 0 <= i < spec.replicas && name == k.name + "-" + Itoa(i)
  }

  /** A VM that was asked to go. */
  function Asked(prompt: bool, vm: Vm): Option<Vm> { if prompt then None else Some(vm.(deleting := true)) }

  /** Every VM after scaling: at a wanted name what was there, or a new one of
      the request; the request's own under any other name asked to go; all else as before. */
  ghost predicate ScaledTo(prompt: bool, vms: map<Place, Vm>, after: map<Place, Vm>, k: Key, spec: Spec) {
    forall p :: VmAt(after, p) ==
      if p.cluster != spec.region || p.namespace != spec.tenant then VmAt(vms, p)
      else if Wanted(k, spec, p.name) then (if p in vms then Some(vms[p]) else Some(Vm(Some(k), false, false)))
      else if p in vms && vms[p].owner == Some(k) then Asked(prompt, vms[p])
      else VmAt(vms, p)
  }

  /** Carrying out a plan, whatever else is there. */
  lemma PlanScales(s: State, k: Key, spec: Spec, plan: Plan)
    requires spec.tenant != ""
    requires IsPlan(RequestOf(k, spec), OwnedNames(s, spec.region, spec.tenant, k), plan)
    ensures var grown := CreateVms(s.vms, k, Places(spec, Elements(plan.create)));
            ScaledTo(s.prompt, s.vms, DeleteVms(s.prompt, grown, Places(spec, Elements(plan.delete))), k, spec)
  {
    PlanConverges(RequestOf(k, spec), OwnedNames(s, spec.region, spec.tenant, k), plan);
    var grown := CreateVms(s.vms, k, Places(spec, Elements(plan.create)));
    var after := DeleteVms(s.prompt, grown, Places(spec, Elements(plan.delete)));
    forall p: Place | p.cluster == spec.region && p.namespace == spec.tenant
      ensures p in Places(spec, Elements(plan.create)) <==> p.name in Elements(plan.create)
      ensures p in Places(spec, Elements(plan.delete)) <==> p.name in Elements(plan.delete)
      ensures Wanted(k, spec, p.name) <==> p.name in DesiredNames(RequestOf(k, spec))
      ensures p.name in OwnedNames(s, spec.region, spec.tenant, k) <==> p in s.vms && s.vms[p].owner == Some(k)
    {
      WantedIs(k, spec, p.name);
      OwnedHere(s, k, spec, p);
    }
  }

  lemma WantedIs(k: Key, spec: Spec, name: string)
    ensures Wanted(k, spec, name) <==> name in DesiredNames(RequestOf(k, spec))
  {
    if Wanted(k, spec, name) {
      var i :| 0 <= i < spec.replicas && name == k.name + "-" + Itoa(i);
      assert name == VMName(k.name, i);
    }
    if name in DesiredNames(RequestOf(k, spec)) {
      var i :| 0 <= i < spec.replicas && name == VMName(k.name, i);
      assert name == k.name + "-" + Itoa(i);
    }
  }

  lemma OwnedHere(s: State, k: Key, spec: Spec, p: Place)
    requires spec.tenant != "" && p.cluster == spec.region && p.namespace == spec.tenant
    ensures p.name in OwnedNames(s, spec.region, spec.tenant, k) <==> p in s.vms && s.vms[p].owner == Some(k)
  {
    ListedMeans(s, spec.region, spec.tenant, k, p.name);
    forall q: Place | q.cluster == spec.region && q.namespace == spec.tenant && q.name == p.name ensures q == p { }
  }

  lemma ScaledMeans(s: State, k: Key, spec: Spec)
    requires spec.tenant != ""
    ensures Scaled(s, k, spec) <==>
            forall p: Place | p.cluster == spec.region && p.namespace == spec.tenant ::
              Wanted(k, spec, p.name) <==> p in s.vms && s.vms[p].owner == Some(k)
  {
    forall p: Place | p.cluster == spec.region && p.namespace == spec.tenant
      ensures Wanted(k, spec, p.name) <==> p.name in DesiredNames(RequestOf(k, spec))
      ensures p.name in OwnedNames(s, spec.region, spec.tenant, k) <==> p in s.vms && s.vms[p].owner == Some(k)
    {
      WantedIs(k, spec, p.name);
      OwnedHere(s, k, spec, p);
    }
    if forall p: Place | p.cluster == spec.region && p.namespace == spec.tenant ::
         Wanted(k, spec, p.name) <==> p in s.vms && s.vms[p].owner == Some(k) {
      forall name
        ensures name in OwnedNames(s, spec.region, spec.tenant, k) <==> name in DesiredNames(RequestOf(k, spec))
      {
        assert VmPlace(spec, name).name == name;
      }
    }
  }

  /** Without strangers, and where deletion is prompt, exactly the desired VMs are the request's. */
  lemma ScaledToScales(s: State, t: State, k: Key, spec: Spec)
    requires spec.tenant != "" && s.prompt && NoStrangers(s.vms, k, spec)
    requires ScaledTo(s.prompt, s.vms, t.vms, k, spec)
    ensures Scaled(t, k, spec) && NoStrangers(t.vms, k, spec)
  {
    forall p: Place | p.cluster == spec.region && p.namespace == spec.tenant
      ensures Wanted(k, spec, p.name) <==> p in t.vms && t.vms[p].owner == Some(k)
      ensures Wanted(k, spec, p.name) <==> p.name in DesiredNames(RequestOf(k, spec))
    {
      WantedIs(k, spec, p.name);
      var _ := VmAt(t.vms, p);
    }
    ScaledMeans(t, k, spec);
  }

  // ---------- What a pass does, in plain terms ----------

  /** A copied Secret; one that was there keeps its owner. */
  function Copied(secrets: map<Place, Secret>, p: Place, k: Key, data: Data): map<Place, Secret> {
    secrets[p := Secret(if p in secrets then secrets[p].owner else Some(k), data)]
  }

  /** A request's VMs scaled and reported. */
  ghost predicate Deployed(s: State, t: State, k: Key, spec: Spec) {
    && k in s.hub && k in t.hub
    && t == s.(hub := s.hub[k := s.hub[k].(status := t.hub[k].status)], vms := t.vms, workers := s.workers - {k})
    && ScaledTo(s.prompt, s.vms, t.vms, k, spec)
    && t.hub[k].status.Some? && Reports(t, k, spec, t.hub[k].status.value)
  }

  /** A live request on its engaged cluster: its Secret copied, its VMs scaled and reported. */
  ghost predicate Served(s: State, t: State, k: Key, spec: Spec) {
    var source, copy := Key(k.namespace, spec.secretName), Place(spec.region, spec.tenant, spec.secretName);
    source in s.hubSecrets && Deployed(s.(secrets := Copied(s.secrets, copy, k, s.hubSecrets[source])), t, k, spec)
  }

  /** A live request with a tenant that carries the finalizer: reported as
      unschedulable without its cluster, left alone without its Secret, otherwise served. */
  ghost predicate Placed(s: State, t: State, k: Key, spec: Spec, ok: bool)
    requires k in s.hub
  {
    var source := Key(k.namespace, spec.secretName);
    if spec.region !in s.engaged then
      var status := Status(spec.region, Unschedulable, 0, NoVms(spec.region));
      ok && t == s.(hub := s.hub[k := s.hub[k].(status := Some(status))], workers := s.workers - {k})
    else if source !in s.hubSecrets then !ok && t == s.(workers := s.workers - {k})
    else ok && Served(s, t, k, spec)
  }

  /** A request on its way out: its listed VMs are asked to go and its Secret
      is gone where the cluster can be found, and the request leaves the hub. */
  ghost predicate Released(s: State, t: State, k: Key, spec: Spec) {
    var found := spec.valid && spec.tenant != "" && spec.region in s.engaged;
    && t == s.(hub := s.hub - {k}, vms := t.vms, workers := s.workers - {k},
               secrets := if found then s.secrets - {Place(spec.region, spec.tenant, spec.secretName)} else s.secrets)
    && (forall p :: VmAt(t.vms, p) ==
         if found && p in s.vms && p.cluster == spec.region && p.namespace == spec.tenant && s.vms[p].owner == Some(k)
         then Asked(s.prompt, s.vms[p]) else VmAt(s.vms, p))
  }

  /** Everything an undisturbed pass over k does, from any state. */
  ghost predicate Undisturbed(s: State, t: State, k: Key, ok: bool) {
    if k !in s.hub then ok && t == s
    else
      var obj, spec := s.hub[k], s.hub[k].spec;
      if obj.marked then ok && if obj.finalizer then Released(s, t, k, spec) else t == s
      else if !spec.valid then !ok && t == s
      else if spec.tenant == "" then
        var status := Status(spec.region, Unschedulable, 0, MissingTenantLabel);
        ok && t == s.(hub := s.hub[k := obj.(status := Some(status))])
      else Placed(s.(hub := s.hub[k := obj.(finalizer := true)]), t, k, spec, ok)
  }

  lemma PartsDeploy(start: State, scaled: State, done: State, k: Key, spec: Spec, seen: Option<Status>, status: Status)
    requires k in start.hub && start.hub[k].status == seen
    requires scaled == start.(vms := scaled.vms, workers := scaled.workers)
    requires ScaledTo(start.prompt, start.vms, scaled.vms, k, spec) && Reports(scaled, k, spec, status)
    requires done == scaled.(hub := Patched(scaled.hub, k, seen, status), workers := start.workers - {k})
    ensures Deployed(start, done, k, spec)
  {
    SameReports(scaled, done, k, spec, status);
    assert start.hub[k].(status := seen) == start.hub[k];
  }

  lemma SameReports(s: State, t: State, k: Key, spec: Spec, status: Status)
    requires s.vms == t.vms
    ensures Reports(s, k, spec, status) <==> Reports(t, k, spec, status)
  {
    assert forall i: nat :: ReadyAt(s, k, spec, i) <==> ReadyAt(t, k, spec, i);
    assert (set i | 0 <= i < spec.replicas && ReadyAt(s, k, spec, i))
           == (set i | 0 <= i < spec.replicas && ReadyAt(t, k, spec, i));
  }

  /** Served where it can be placed, a request has converged. */
  lemma ServedConverges(s: State, t: State, k: Key, spec: Spec)
    requires Placeable(s, k) && s.hub[k].finalizer && s.hub[k].spec == spec && Served(s, t, k, spec)
    ensures Converged(t, k) && Placeable(t, k) && t.hub[k].spec == spec
  {
    ScaledToScales(s, t, k, spec);
    StatusForReports(t, k, spec);
  }

  lemma HeldPlaced(start: State, held: State, done: State, k: Key, obj: HubObject, ok: bool)
    requires k in start.hub && start.hub[k] == obj
    requires held == start.(hub := start.hub[k := obj.(finalizer := true)], workers := held.workers)
    requires held.workers - {k} == start.workers - {k} && Placed(held, done, k, obj.spec, ok)
    ensures Placed(start.(hub := start.hub[k := obj.(finalizer := true)]), done, k, obj.spec, ok)
  {
    PlacedFrom(start.(hub := start.hub[k := obj.(finalizer := true)]), held, done, k, obj.spec, ok);
  }

  /** The fixpoint in plain terms: the finalizer, an equal copy of the Secret,
      every wanted VM and no other, and the status that reports them. */
  lemma FixpointMeans(s: State, k: Key)
    requires k in s.hub && s.hub[k].spec.tenant != ""
    ensures var obj, spec := s.hub[k], s.hub[k].spec;
            var source, copy := Key(k.namespace, spec.secretName), Place(spec.region, spec.tenant, spec.secretName);
            Converged(s, k) <==>
              && obj.finalizer
              && source in s.hubSecrets && copy in s.secrets && s.secrets[copy].data == s.hubSecrets[source]
              && (forall p: Place | p.cluster == spec.region && p.namespace == spec.tenant ::
                    Wanted(k, spec, p.name) <==> p in s.vms && s.vms[p].owner == Some(k))
              && obj.status.Some? && Reports(s, k, spec, obj.status.value)
  {
    StatusForReports(s, k, s.hub[k].spec);
    ScaledMeans(s, k, s.hub[k].spec);
  }

  /** Program points before the pass are no part of what it does. */
  lemma PlacedFrom(s: State, here: State, t: State, k: Key, spec: Spec, ok: bool)
    requires k in s.hub && here == s.(workers := here.workers) && here.workers - {k} == s.workers - {k}
    requires Placed(here, t, k, spec, ok)
    ensures Placed(s, t, k, spec, ok)
  {
  }

  lemma AttendedFrom(start: State, done: State, k: Key, obj: HubObject, ok: bool)
    requires k in start.hub && start.hub[k] == obj && !obj.marked && obj.spec.valid && obj.spec.tenant != ""
    requires Placed(start.(hub := start.hub[k := obj.(finalizer := true)]), done, k, obj.spec, ok)
    ensures Undisturbed(Goto(start, k, None), done, k, ok)
  {
    var held := start.(hub := start.hub[k := obj.(finalizer := true)]);
    PlacedFrom(Goto(held, k, None), held, done, k, obj.spec, ok);
  }

  lemma PlacedConverges(start: State, done: State, k: Key, obj: HubObject, ok: bool)
    requires Placeable(start, k) && start.hub[k] == obj
    requires Placed(start.(hub := start.hub[k := obj.(finalizer := true)]), done, k, obj.spec, ok)
    ensures ok && Converged(done, k) && Placeable(done, k) && done.hub[k].spec == obj.spec
  {
    ServedConverges(start.(hub := start.hub[k := obj.(finalizer := true)]), done, k, obj.spec);
  }

  /** Nothing that matters to a pass depends on its own program point. */
  lemma Arrived(start: State, here: State, k: Key, pc: Option<Pc>)
    requires k !in start.workers && here == Goto(start, k, pc)
    ensures start == Goto(here, k, None)
    ensures (Placeable(start, k) <==> Placeable(here, k)) && (Converged(start, k) <==> Converged(here, k))
  {
    GotoEnds(start, k, pc);
    SameFixpoint(start, here, k);
    assert start.workers - {k} == start.workers;
  }

  // ---------- What cleanup leaves ----------

  /** The spokes once cleanSpoke is done. */
  function CleanedUp(s: State, k: Key, spec: Spec): State {
    s.(vms := DeleteVms(s.prompt, s.vms, Listing(s, spec.region, spec.tenant, k)),
        secrets := s.secrets - {SecretPlace(spec)})
  }

  /** Cleanup can find the spoke. */
  predicate Reachable(s: State, spec: Spec) { spec.valid && spec.tenant != "" && spec.region in s.engaged }

  /** The state an undisturbed finalizing pass leaves. */
  function Finalized(s: State, k: Key, spec: Spec): State {
    var t := if Reachable(s, spec) then CleanedUp(s, k, spec) else s;
    t.(hub := t.hub - {k}, workers := t.workers - {k})
  }

  /** A live VM of k where cleanup would not look for it. */
  predicate StrayVm(s: State, k: Key, spec: Spec) {
    exists p :: p in s.vms && s.vms[p].owner == Some(k) && !s.vms[p].deleting &&
                !(Reachable(s, spec) && p in Listing(s, spec.region, spec.tenant, k))
  }

  predicate StraySecret(s: State, k: Key, spec: Spec) {
    exists p :: p in s.secrets && s.secrets[p].owner == Some(k) && !(Reachable(s, spec) && p == SecretPlace(spec))
  }

  /** Exactly what a finalizing pass leaves behind of its request: edited
      placements, disengaged clusters, lost tenants and specs that no longer
      parse all come down to objects outside its reach. */
  lemma LeftBehind(s: State, k: Key, spec: Spec)
    ensures !NoLiveVm(Finalized(s, k, spec), k) <==> StrayVm(s, k, spec)
    ensures !NoSecret(Finalized(s, k, spec), k) <==> StraySecret(s, k, spec)
  {
    var t := Finalized(s, k, spec);
    forall p | p in s.vms && s.vms[p].owner == Some(k) && !s.vms[p].deleting
      ensures (p in t.vms && !t.vms[p].deleting)
              <==> !(Reachable(s, spec) && p in Listing(s, spec.region, spec.tenant, k)) {
    }
    if StrayVm(s, k, spec) {
      var p :| p in s.vms && s.vms[p].owner == Some(k) && !s.vms[p].deleting &&
               !(Reachable(s, spec) && p in Listing(s, spec.region, spec.tenant, k));
      assert p in t.vms && t.vms[p] == s.vms[p];
    }
    if StraySecret(s, k, spec) {
      var p :| p in s.secrets && s.secrets[p].owner == Some(k) && !(Reachable(s, spec) && p == SecretPlace(spec));
      assert p in t.secrets && t.secrets[p] == s.secrets[p];
    }
  }

  lemma FinalizedReleases(s: State, k: Key, spec: Spec)
    ensures Released(s, Finalized(s, k, spec), k, spec)
  {
    var t := Finalized(s, k, spec);
    forall p ensures VmAt(t.vms, p) ==
      if Reachable(s, spec) && p in s.vms && p.cluster == spec.region && p.namespace == spec.tenant &&
         s.vms[p].owner == Some(k)
      then Asked(s.prompt, s.vms[p]) else VmAt(s.vms, p)
    {
      assert p in Listing(s, spec.region, spec.tenant, k) <==>
             p in s.vms && p.cluster == spec.region && (spec.tenant == "" || p.namespace == spec.tenant) &&
             s.vms[p].owner == Some(k);
    }
  }

  lemma SameCleanup(s: State, t: State, k: Key, spec: Spec)
    requires t == s.(workers := t.workers)
    ensures CleanedUp(t, k, spec) == CleanedUp(s, k, spec).(workers := t.workers)
  {
    assert Listing(t, spec.region, spec.tenant, k) == Listing(s, spec.region, spec.tenant, k);
  }

  // ---------- The reconciler ----------

  class RequestReconciler {
    const world: World

    constructor (world: World)
      ensures this.world == world
    {
      this.world := world;
    }

    /** One pass. It leaves no program point behind, is a steady run of the
        protocol whatever happens around it, and undisturbed does just what
        Undisturbed says. Where the request can be placed it converges; on
        what has converged it writes nothing. */
    method Reconcile(key: Key) returns (ok: bool)
      requires key !in world.s.workers
      modifies world
      ensures key !in world.s.workers && Reaches(old(world.s), world.s)
      ensures world.quiet ==> Undisturbed(old(world.s), world.s, key, ok)
      ensures world.quiet && Placeable(old(world.s), key) ==>
                ok && Converged(world.s, key) && Placeable(world.s, key)
                    && world.s.hub[key].spec == old(world.s).hub[key].spec
      ensures world.quiet && Placeable(old(world.s), key) && Converged(old(world.s), key) ==>
                world.writes == old(world.writes) && world.s == old(world.s)
    {
      ghost var start := world.s;
      var got, found := world.GetRequest(key);
      if !got || found.None? { return got; }
      ghost var here := world.s;
      ok := Handle(key, found.value);
      Runs.ReachesFar(SteadyNext, start, here, world.s);
      if world.quiet { Arrived(start, here, key, AfterGet(found.value)); }
    }

    /** The pass over the request it has read. */
    method Handle(key: Key, obj: HubObject) returns (ok: bool)
      requires At(world.s, key) == AfterGet(obj)
      modifies world
      ensures At(world.s, key) == None && Reaches(old(world.s), world.s)
      ensures world.quiet && key in old(world.s).hub && old(world.s).hub[key] == obj ==>
                && Undisturbed(Goto(old(world.s), key, None), world.s, key, ok)
                && (Placeable(old(world.s), key) ==>
                      ok && Converged(world.s, key) && Placeable(world.s, key) && world.s.hub[key].spec == obj.spec)
                && (Placeable(old(world.s), key) && Converged(old(world.s), key) ==>
                      world.writes == old(world.writes) && world.s == Goto(old(world.s), key, None))
    {
      ghost var start := world.s;
      Runs.ReachesItself(SteadyNext, start);
      if obj.marked {
        ok := Finalize(key, obj);
        if world.quiet && key in start.hub && start.hub[key] == obj { assert start.hub == start.hub[key := obj]; }
        return;
      }
      if !obj.spec.valid { return false; }
      if obj.spec.tenant == "" {
        ok := PatchStatus(key, obj.status, MissingTenantStatus(obj.spec.region));
        return;
      }
      ok := Attend(key, obj);
      if world.quiet && key in start.hub && start.hub[key] == obj {
        AttendedFrom(start, world.s, key, obj, ok);
        if Placeable(start, key) { PlacedConverges(start, world.s, key, obj, ok); }
      }
    }

    /** The pass from the finalizer on. */
    method Attend(key: Key, obj: HubObject) returns (ok: bool)
      requires At(world.s, key) == AfterGet(obj) && !obj.marked && obj.spec.valid && obj.spec.tenant != ""
      modifies world
      ensures At(world.s, key) == None && Reaches(old(world.s), world.s)
      ensures world.quiet && key in old(world.s).hub && old(world.s).hub[key] == obj ==>
                Placed(old(world.s).(hub := old(world.s).hub[key := obj.(finalizer := true)]), world.s, key, obj.spec,
                    ok)
      ensures world.quiet && Converged(old(world.s), key) && old(world.s).hub[key] == obj
              && obj.spec.region in old(world.s).engaged ==>
                world.writes == old(world.writes) && world.s == old(world.s).(workers := old(world.s).workers - {key})
    {
      ghost var start := world.s;
      Runs.ReachesItself(SteadyNext, start);
      var seen := obj.status;
      if !obj.finalizer {
        var patched;
        patched, seen := AddFinalizer(key, obj.spec);
        if !patched { return false; }
      }
      ghost var held := world.s;
      ok := Place(key, obj.spec, seen);
      Runs.ReachesFar(SteadyNext, start, held, world.s);
      if world.quiet && key in start.hub && start.hub[key] == obj { HeldPlaced(start, held, world.s, key, obj, ok); }
    }

    /** The patch that adds the finalizer; its answer refreshes the pass's copy. */
    method AddFinalizer(key: Key, spec: Spec) returns (ok: bool, seen: Option<Status>)
      requires At(world.s, key) == Some(Pc.AddFinalizer(spec))
      modifies world
      ensures Reaches(old(world.s), world.s)
      ensures At(world.s, key) == if ok then Some(GetCluster(spec, seen)) else None
      ensures world.quiet && key in old(world.s).hub && !old(world.s).hub[key].marked ==>
                && ok && seen == old(world.s).hub[key].status
                && world.s == old(world.s).(hub := old(world.s).hub[key := old(world.s).hub[key].(finalizer := true)],
                                            workers := old(world.s).workers[key := GetCluster(spec, seen)])
    {
      var served;
      ok, served := world.Issue(key, PatchFinalizer(key));
      seen := if ok then world.s.workers[key].seen else None;
    }

    /** The rest of a pass over a live request that carries the finalizer. */
    method Place(key: Key, spec: Spec, seen: Option<Status>) returns (ok: bool)
      requires At(world.s, key) == Some(GetCluster(spec, seen)) && spec.tenant != ""
      modifies world
      ensures At(world.s, key) == None && Reaches(old(world.s), world.s)
      ensures world.quiet && key in old(world.s).hub && old(world.s).hub[key].status == seen ==>
                Placed(old(world.s), world.s, key, spec, ok)
      ensures world.quiet && Converged(old(world.s), key) && old(world.s).hub[key].spec == spec
              && old(world.s).hub[key].status == seen && spec.region in old(world.s).engaged ==>
                world.writes == old(world.writes) && world.s == old(world.s).(workers := old(world.s).workers - {key})
    {
      ghost var start := world.s;
      var got, engaged := FindSpoke(key, spec, seen);
      if !got { return false; }
      ghost var here := world.s;
      if !engaged {
        ok := PatchStatus(key, seen, UnschedulableStatus(spec.region));
        Runs.ReachesFar(SteadyNext, start, here, world.s);
        GotoEnds(start, key, StatusTail(seen, UnschedulableStatus(spec.region)));
        return;
      }
      ok := Sync(key, spec, seen);
      Runs.ReachesFar(SteadyNext, start, here, world.s);
      if world.quiet {
        GotoEnds(start, key, Some(ReadHubSecret(spec, seen)));
        SameFixpoint(start, here, key);
      }
    }

    method FindSpoke(key: Key, spec: Spec, seen: Option<Status>) returns (ok: bool, engaged: bool)
      requires At(world.s, key) == Some(GetCluster(spec, seen))
      modifies world
      ensures Reaches(old(world.s), world.s) && world.writes == old(world.writes)
      ensures At(world.s, key) == if !ok then None
                                  else if engaged then Some(ReadHubSecret(spec, seen))
                                  else StatusTail(seen, UnschedulableStatus(spec.region))
      ensures world.quiet ==>
                && ok && engaged == (spec.region in old(world.s).engaged)
                && world.s == Goto(old(world.s), key, if engaged then Some(ReadHubSecret(spec, seen))
                                                     else StatusTail(seen, UnschedulableStatus(spec.region)))
    {
      var served;
      ok, served := world.Issue(key, LookUpCluster(spec.region));
      engaged := spec.region in served.engaged;
    }

    /** The three parts of a pass over a request whose cluster is engaged. */
    method Sync(key: Key, spec: Spec, seen: Option<Status>) returns (ok: bool)
      requires At(world.s, key) == Some(ReadHubSecret(spec, seen)) && spec.tenant != ""
      modifies world
      ensures At(world.s, key) == None && Reaches(old(world.s), world.s)
      ensures world.quiet && key in old(world.s).hub && old(world.s).hub[key].status == seen ==>
                if Key(key.namespace, spec.secretName) in old(world.s).hubSecrets
                then ok && Served(old(world.s), world.s, key, spec)
                else !ok && world.s == old(world.s).(workers := old(world.s).workers - {key})
      ensures world.quiet && Converged(old(world.s), key) && old(world.s).hub[key].spec == spec
              && old(world.s).hub[key].status == seen ==>
                world.writes == old(world.writes) && world.s == old(world.s).(workers := old(world.s).workers - {key})
    {
      ghost var start := world.s;
      ok := SyncSecret(key, spec, seen);
      if !ok { return; }
      ghost var copied := world.s;
      ok := Deploy(key, spec, seen);
      Runs.ReachesFar(SteadyNext, start, copied, world.s);
      if world.quiet {
        GotoEnds(start, key, Some(ListVMs(spec, seen)));
        if copied.secrets == start.secrets { SameFixpoint(start, copied, key); }
      }
    }

    /** The last two of them. */
    method Deploy(key: Key, spec: Spec, seen: Option<Status>) returns (ok: bool)
      requires At(world.s, key) == Some(ListVMs(spec, seen)) && spec.tenant != ""
      modifies world
      ensures At(world.s, key) == None && Reaches(old(world.s), world.s)
      ensures world.quiet && key in old(world.s).hub && old(world.s).hub[key].status == seen ==>
                ok && Deployed(old(world.s), world.s, key, spec)
      ensures world.quiet && Converged(old(world.s), key) && old(world.s).hub[key].spec == spec
              && old(world.s).hub[key].status == seen ==>
                world.writes == old(world.writes) && world.s == old(world.s).(workers := old(world.s).workers - {key})
    {
      ghost var start := world.s;
      ok := SyncVMs(key, spec, seen);
      if !ok { return; }
      ghost var scaled := world.s;
      ok := SyncStatus(key, spec, seen);
      Runs.ReachesFar(SteadyNext, start, scaled, world.s);
      if world.quiet && key in start.hub && start.hub[key].status == seen {
        GotoEnds(start, key, Some(ListForStatus(spec, seen)));
        PartsDeploy(start, scaled, world.s, key, spec, seen, StatusFor(scaled, spec.region, key, spec));
        if Converged(start, key) && start.hub[key].spec == spec { DeployedRests(start, scaled, key); }
      }
    }

    method SyncSecret(key: Key, spec: Spec, seen: Option<Status>) returns (ok: bool)
      requires At(world.s, key) == Some(ReadHubSecret(spec, seen))
      modifies world
      ensures Reaches(old(world.s), world.s)
      ensures At(world.s, key) == if ok then Some(ListVMs(spec, seen)) else None
      ensures world.quiet && Key(key.namespace, spec.secretName) in old(world.s).hubSecrets ==>
                && ok && world.s == old(world.s).(
                   secrets := Copied(old(world.s).secrets, SecretPlace(spec), key,
                                     old(world.s).hubSecrets[Key(key.namespace, spec.secretName)]),
                   workers := old(world.s).workers[key := ListVMs(spec, seen)])
      ensures world.quiet && Key(key.namespace, spec.secretName) !in old(world.s).hubSecrets ==>
                !ok && world.s == Goto(old(world.s), key, None)
      ensures world.quiet && Synced(old(world.s), key, spec) ==>
                world.writes == old(world.writes) && world.s.secrets == old(world.s).secrets
    {
      ghost var start := world.s;
      var got, hub := world.Issue(key, GetHubSecret(Key(key.namespace, spec.secretName)));
      if !got { return false; }
      var desired := hub.hubSecrets[Key(key.namespace, spec.secretName)];
      ghost var here := world.s;
      ok := CopySecret(key, spec, seen, desired);
      Runs.ReachesFar(SteadyNext, start, here, world.s);
    }

    /** The spoke half of syncSecret: read the copy, then create, update or leave it. */
    method CopySecret(key: Key, spec: Spec, seen: Option<Status>, desired: Data) returns (ok: bool)
      requires At(world.s, key) == Some(ReadSpokeSecret(spec, seen, desired))
      modifies world
      ensures Reaches(old(world.s), world.s)
      ensures At(world.s, key) == if ok then Some(ListVMs(spec, seen)) else None
      ensures world.quiet ==>
                && ok && world.s == old(world.s).(
                   secrets := Copied(old(world.s).secrets, SecretPlace(spec), key, desired),
                   workers := old(world.s).workers[key := ListVMs(spec, seen)])
      ensures world.quiet && SecretPlace(spec) in old(world.s).secrets
              && old(world.s).secrets[SecretPlace(spec)].data == desired ==>
                world.writes == old(world.writes) && world.s.secrets == old(world.s).secrets
    {
      ghost var start := world.s;
      var read, spoke := world.Issue(key, GetSecret(SecretPlace(spec)));
      if !read { return false; }
      if SecretPlace(spec) in spoke.secrets && spoke.secrets[SecretPlace(spec)].data == desired { return true; }
      ghost var here := world.s;
      ok := WriteSecret(key, spec, seen, desired, SecretPlace(spec) !in spoke.secrets);
      Runs.ReachesFar(SteadyNext, start, here, world.s);
    }

    /** Create or update of the copy. */
    method WriteSecret(key: Key, spec: Spec, seen: Option<Status>, desired: Data, absent: bool) returns (ok: bool)
      requires At(world.s, key)
               == Some(if absent then CreateSecret(spec, seen, desired) else UpdateSecret(spec, seen, desired))
      modifies world
      ensures Reaches(old(world.s), world.s)
      ensures At(world.s, key) == if ok then Some(ListVMs(spec, seen)) else None
      ensures world.quiet && absent == (SecretPlace(spec) !in old(world.s).secrets) ==>
                && ok && world.s == old(world.s).(
                   secrets := Copied(old(world.s).secrets, SecretPlace(spec), key, desired),
                   workers := old(world.s).workers[key := ListVMs(spec, seen)])
    {
      var served;
      ok, served := world.Issue(key, if absent then NewSecret(SecretPlace(spec), key, desired)
          else SetSecretData(SecretPlace(spec), desired));
    }

    /** Undisturbed it creates what is missing and asks what is surplus to go, whatever it finds. */
    method SyncVMs(key: Key, spec: Spec, seen: Option<Status>) returns (ok: bool)
      requires At(world.s, key) == Some(ListVMs(spec, seen))
      modifies world
      ensures Reaches(old(world.s), world.s)
      ensures At(world.s, key) == if ok then Some(ListForStatus(spec, seen)) else None
      ensures world.quiet ==>
                && ok && world.s == old(world.s).(vms := world.s.vms,
                   workers := old(world.s).workers[key := ListForStatus(spec, seen)])
                && (spec.tenant != "" ==> ScaledTo(world.s.prompt, old(world.s).vms, world.s.vms, key, spec))
      ensures world.quiet && Scaled(old(world.s), key, spec) ==>
                world.writes == old(world.writes) && world.s.vms == old(world.s).vms
    {
      ghost var start := world.s;
      var plan;
      ok, plan := MakePlan(key, spec, seen);
      if !ok { return; }
      ghost var decided := world.s;
      ok := CarryOut(key, spec, seen, plan);
      Runs.ReachesFar(SteadyNext, start, decided, world.s);
      if world.quiet && spec.tenant != "" { PlanScales(start, key, spec, plan); }
      if world.quiet {
        PlanConverges(RequestOf(key, spec), OwnedNames(start, spec.region, spec.tenant, key), plan);
      }
    }

    /** The two loops of syncVMs. */
    method CarryOut(key: Key, spec: Spec, seen: Option<Status>, plan: Plan) returns (ok: bool)
      requires At(world.s, key) == Some(AfterPlan(spec, seen, plan))
      modifies world
      ensures Reaches(old(world.s), world.s)
      ensures At(world.s, key) == if ok then Some(ListForStatus(spec, seen)) else None
      ensures world.quiet ==>
                var grown := CreateVms(old(world.s).vms, key, Places(spec, Elements(plan.create)));
                ok && world.s
                    == old(world.s).(vms := DeleteVms(old(world.s).prompt, grown, Places(spec, Elements(plan.delete))),
                        workers := old(world.s).workers[key := ListForStatus(spec, seen)])
      ensures plan == Plan([], []) ==> world.s == old(world.s) && world.writes == old(world.writes)
    {
      ghost var start := world.s;
      ok := CreateVMs(key, spec, seen, plan);
      if !ok { return; }
      ghost var grown := world.s;
      ok := DeleteVMs(key, spec, seen, plan.delete);
      Runs.ReachesFar(SteadyNext, start, grown, world.s);
    }

    /** syncVMs up to its loops: the list, and PlanVMs of it. */
    method MakePlan(key: Key, spec: Spec, seen: Option<Status>) returns (ok: bool, plan: Plan)
      requires At(world.s, key) == Some(ListVMs(spec, seen))
      modifies world`s
      ensures Reaches(old(world.s), world.s)
      ensures At(world.s, key) == if ok then Some(AfterPlan(spec, seen, plan)) else None
      ensures world.quiet ==>
                && ok && world.s == Goto(old(world.s), key, Some(AfterPlan(spec, seen, plan)))
                && IsPlan(RequestOf(key, spec), OwnedNames(old(world.s), spec.region, spec.tenant, key), plan)
    {
      ghost var start := world.s;
      plan := Plan([], []);
      var existing;
      ok, existing := world.ListVMs(key, ListOwned(spec.region, spec.tenant, key));
      if !ok { return; }
      plan := PlanVMs(RequestOf(key, spec), existing);
      ghost var listed := world.s;
      world.Decide(key, plan);
      Runs.ReachesFar(SteadyNext, start, listed, world.s);
    }

    /** Create of the plan's next VM. */
    method CreateVM(key: Key, spec: Spec, seen: Option<Status>, plan: Plan) returns (ok: bool)
      requires plan.create != [] && At(world.s, key) == Some(Applying(spec, seen, plan))
      modifies world
      ensures Reaches(old(world.s), world.s)
      ensures var next := AfterPlan(spec, seen, plan.(create := plan.create[1..]));
              && At(world.s, key) == (if ok then Some(next) else None)
              && (world.quiet ==>
                 ok && world.s == old(world.s).(vms := CreateVm(old(world.s).vms, VmPlace(spec, plan.create[0]), key),
                                                                 workers := old(world.s).workers[key := next]))
    {
      var served;
      ok, served := world.Issue(key, NewVm(VmPlace(spec, plan.create[0]), key));
    }

    /** Delete of the plan's next VM. */
    method DeleteVM(key: Key, spec: Spec, seen: Option<Status>, names: seq<string>) returns (ok: bool)
      requires names != [] && At(world.s, key) == Some(Applying(spec, seen, Plan([], names)))
      modifies world
      ensures Reaches(old(world.s), world.s)
      ensures var next := AfterPlan(spec, seen, Plan([], names[1..]));
              && At(world.s, key) == (if ok then Some(next) else None)
              && (world.quiet ==>
                 ok && world.s
                     == old(world.s).(vms := DeleteVm(old(world.s).prompt, old(world.s).vms, VmPlace(spec, names[0])),
                                                                 workers := old(world.s).workers[key := next]))
    {
      var served;
      ok, served := world.Issue(key, RemoveVm(VmPlace(spec, names[0])));
    }

    /** The first loop of syncVMs. */
    method CreateVMs(key: Key, spec: Spec, seen: Option<Status>, plan: Plan) returns (ok: bool)
      requires At(world.s, key) == Some(AfterPlan(spec, seen, plan))
      modifies world
      ensures Reaches(old(world.s), world.s)
      ensures At(world.s, key) == if ok then Some(AfterPlan(spec, seen, Plan([], plan.delete))) else None
      ensures world.quiet ==>
                ok && world.s
                    == old(world.s).(vms := CreateVms(old(world.s).vms, key, Places(spec, Elements(plan.create))),
                        workers := old(world.s).workers[key := AfterPlan(spec, seen, Plan([], plan.delete))])
      ensures plan.create == [] ==> world.s == old(world.s) && world.writes == old(world.writes)
    {
      ghost var start := world.s;
      Runs.ReachesItself(SteadyNext, start);
      CreateNoVms(start.vms, key, spec);
      for i := 0 to |plan.create|
        invariant Reaches(start, world.s)
        invariant At(world.s, key) == Some(AfterPlan(spec, seen, Plan(plan.create[i..], plan.delete)))
        invariant world.quiet ==>
                  world.s == start.(vms := CreateVms(start.vms, key, Places(spec, Elements(plan.create[..i]))),
                      workers := start.workers[key := AfterPlan(spec, seen, Plan(plan.create[i..], plan.delete))])
        invariant i == 0 ==> world.s == start && world.writes == old(world.writes)
      {
        ghost var here := world.s;
        var created := CreateVM(key, spec, seen, Plan(plan.create[i..], plan.delete));
        Runs.ReachesFar(SteadyNext, start, here, world.s);
        if !created { return false; }
        CreateOneMore(start.vms, key, spec, plan.create, i);
        assert plan.create[i..][1..] == plan.create[i + 1..];
      }
      assert plan.create[..|plan.create|] == plan.create && plan.create[|plan.create|..] == [];
      ok := true;
    }

    /** The second loop of syncVMs. */
    method DeleteVMs(key: Key, spec: Spec, seen: Option<Status>, names: seq<string>) returns (ok: bool)
      requires At(world.s, key) == Some(AfterPlan(spec, seen, Plan([], names)))
      modifies world
      ensures Reaches(old(world.s), world.s)
      ensures At(world.s, key) == if ok then Some(ListForStatus(spec, seen)) else None
      ensures world.quiet ==>
                ok && world.s
                    == old(world.s).(vms :=
                        DeleteVms(old(world.s).prompt, old(world.s).vms, Places(spec, Elements(names))),
                                               workers := old(world.s).workers[key := ListForStatus(spec, seen)])
      ensures names == [] ==> world.s == old(world.s) && world.writes == old(world.writes)
    {
      ghost var start := world.s;
      Runs.ReachesItself(SteadyNext, start);
      DeleteNoVms(start.prompt, start.vms, spec);
      for i := 0 to |names|
        invariant Reaches(start, world.s)
        invariant At(world.s, key) == Some(AfterPlan(spec, seen, Plan([], names[i..])))
        invariant world.quiet ==>
                  world.s == start.(vms := world.s.vms,
                      workers := start.workers[key := AfterPlan(spec, seen, Plan([], names[i..]))])
        invariant world.quiet ==> world.s.vms == DeleteVms(start.prompt, start.vms, Places(spec, Elements(names[..i])))
        invariant i == 0 ==> world.s == start && world.writes == old(world.writes)
      {
        ghost var here := world.s;
        var deleted := DeleteVM(key, spec, seen, names[i..]);
        Runs.ReachesFar(SteadyNext, start, here, world.s);
        if !deleted { return false; }
        DeleteOneMore(start.prompt, start.vms, spec, names, i);
      }
      assert names[..|names|] == names;
      ok := true;
    }

    method SyncStatus(key: Key, spec: Spec, seen: Option<Status>) returns (ok: bool)
      requires At(world.s, key) == Some(ListForStatus(spec, seen))
      modifies world
      ensures At(world.s, key) == None && Reaches(old(world.s), world.s)
      ensures world.quiet && key in old(world.s).hub ==>
                var status := StatusFor(old(world.s), spec.region, key, spec);
                && ok && world.writes == old(world.writes) + (if seen == Some(status) then 0 else 1)
                && world.s == old(world.s).(hub := Patched(old(world.s).hub, key, seen, status),
                                            workers := old(world.s).workers - {key})
                && Reports(old(world.s), key, spec, status)
    {
      ghost var start := world.s;
      var status;
      ok, status := ObserveVMs(key, spec, seen);
      if !ok { return; }
      ghost var here := world.s;
      ok := PatchStatus(key, seen, status);
      Runs.ReachesFar(SteadyNext, start, here, world.s);
    }

    /** The reading half of syncStatus: the list, and ReadyStatus of it. */
    method ObserveVMs(key: Key, spec: Spec, seen: Option<Status>) returns (ok: bool, status: Status)
      requires At(world.s, key) == Some(ListForStatus(spec, seen))
      modifies world
      ensures Reaches(old(world.s), world.s)
      ensures At(world.s, key) == if ok then StatusTail(seen, status) else None
      ensures world.quiet ==> ok && status == StatusFor(old(world.s), spec.region, key, spec)
      ensures world.quiet ==> Reports(old(world.s), key, spec, status)
      ensures world.quiet ==>
              world.s == Goto(old(world.s), key, StatusTail(seen, status)) && world.writes == old(world.writes)
    {
      status := UnschedulableStatus(spec.region);
      var served;
      ok, served := world.Issue(key, ListOwned(spec.region, spec.tenant, key));
      if !ok { return; }
      var ready := world.Enumerate(ReadyNames(served, spec.region, spec.tenant, key));
      status := ReadyStatus(RequestOf(key, spec), ready);
      StatusForReports(served, key, spec);
    }

    method PatchStatus(key: Key, seen: Option<Status>, status: Status) returns (ok: bool)
      requires At(world.s, key) == StatusTail(seen, status)
      modifies world
      ensures At(world.s, key) == None && Reaches(old(world.s), world.s)
      ensures world.quiet && key in old(world.s).hub ==>
                && ok && world.writes == old(world.writes) + (if seen == Some(status) then 0 else 1)
                && world.s == old(world.s).(hub := Patched(old(world.s).hub, key, seen, status),
                                            workers := old(world.s).workers - {key})
    {
      if seen == Some(status) {
        Runs.ReachesItself(SteadyNext, world.s);
        assert world.s.workers - {key} == world.s.workers;
        return true;
      }
      var served;
      ok, served := world.Issue(key, WriteStatus(key, status));
    }

    /** Deletion. Undisturbed it lets the request go in one pass, all its listed
        VMs asked to go and its Secret copy gone, if it was placed; what is left
        behind then is exactly what stood outside that reach. */
    method Finalize(key: Key, obj: HubObject) returns (ok: bool)
      requires obj.marked && At(world.s, key) == AfterGet(obj)
      modifies world
      ensures At(world.s, key) == None && Reaches(old(world.s), world.s)
      ensures world.quiet && old(world.s).hub == old(world.s).hub[key := obj] && obj.finalizer ==>
                && ok && world.s == Finalized(old(world.s), key, obj.spec)
                && Released(old(world.s), world.s, key, obj.spec)
                && (!NoLiveVm(world.s, key) <==> StrayVm(old(world.s), key, obj.spec))
                && (!NoSecret(world.s, key) <==> StraySecret(old(world.s), key, obj.spec))
      ensures world.quiet && !obj.finalizer ==> ok && world.s == old(world.s)
    {
      ghost var start := world.s;
      Runs.ReachesItself(SteadyNext, start);
      if !obj.finalizer { return true; }
      if obj.spec.valid && obj.spec.tenant != "" {
        ok := Leave(key, obj.spec);
        if !ok { return; }
      }
      ghost var here := world.s;
      ok := DropFinalizer(key);
      Runs.ReachesFar(SteadyNext, start, here, world.s);
      LeftBehind(start, key, obj.spec);
      FinalizedReleases(start, key, obj.spec);
    }

    /** finalize's way to the spoke: nothing to do there unless the cluster is engaged. */
    method Leave(key: Key, spec: Spec) returns (ok: bool)
      requires At(world.s, key) == Some(FinCluster(spec)) && spec.tenant != ""
      modifies world
      ensures Reaches(old(world.s), world.s)
      ensures At(world.s, key) == if ok then Some(Release) else None
      ensures world.quiet ==>
                && ok
                && world.s == Goto(if spec.region in old(world.s).engaged then CleanedUp(old(world.s), key, spec)
                   else old(world.s),
                                   key, Some(Release))
    {
      ghost var start := world.s;
      var served;
      ok, served := world.Issue(key, LookUpCluster(spec.region));
      if !ok || spec.region !in served.engaged { return; }
      ghost var here := world.s;
      ok := CleanSpoke(key, spec);
      Runs.ReachesFar(SteadyNext, start, here, world.s);
      if world.quiet { SameCleanup(start, here, key, spec); }
    }

    /** The patch that lets the request go. */
    method DropFinalizer(key: Key) returns (ok: bool)
      requires At(world.s, key) == Some(Release)
      modifies world
      ensures At(world.s, key) == None && Reaches(old(world.s), world.s)
      ensures world.quiet ==>
                && ok && world.s
                   == old(world.s).(hub := WithoutFinalizer(old(world.s).hub, key),
                       workers := old(world.s).workers - {key})
    {
      var served;
      ok, served := world.Issue(key, ClientCall.DropFinalizer(key));
    }

    method CleanSpoke(key: Key, spec: Spec) returns (ok: bool)
      requires At(world.s, key) == Some(FinList(spec)) && spec.tenant != ""
      modifies world
      ensures Reaches(old(world.s), world.s)
      ensures At(world.s, key) == if ok then Some(Release) else None
      ensures world.quiet ==> ok && world.s == Goto(CleanedUp(old(world.s), key, spec), key, Some(Release))
    {
      ghost var start := world.s;
      ok := RemoveVMs(key, spec);
      if !ok { return; }
      ghost var here := world.s;
      var served;
      ok, served := world.Issue(key, RemoveSecret(SecretPlace(spec)));
      Runs.ReachesFar(SteadyNext, start, here, world.s);
    }

    /** The VMs' half of cleanSpoke: every listed VM is asked to go. */
    method RemoveVMs(key: Key, spec: Spec) returns (ok: bool)
      requires At(world.s, key) == Some(FinList(spec)) && spec.tenant != ""
      modifies world
      ensures Reaches(old(world.s), world.s)
      ensures At(world.s, key) == if ok then Some(FinSecret(spec)) else None
      ensures world.quiet ==>
                && ok
                && world.s == old(world.s).(vms := DeleteVms(old(world.s).prompt, old(world.s).vms,
                                                             Listing(old(world.s), spec.region, spec.tenant, key)),
                                            workers := old(world.s).workers[key := FinSecret(spec)])
    {
      ghost var start := world.s;
      var names;
      ok, names := world.ListVMs(key, ListOwned(spec.region, spec.tenant, key));
      if !ok { return; }
      ghost var here := world.s;
      ListedPlaces(start, key, spec);
      ok := DeleteListed(key, spec, names);
      Runs.ReachesFar(SteadyNext, start, here, world.s);
    }

    /** Delete of the next listed VM. */
    method DeleteNext(key: Key, spec: Spec, names: seq<string>) returns (ok: bool)
      requires names != [] && At(world.s, key) == Some(FinVMs(spec, names))
      modifies world
      ensures Reaches(old(world.s), world.s)
      ensures var next := AfterFinList(spec, names[1..]);
              && At(world.s, key) == (if ok then Some(next) else None)
              && (world.quiet ==>
                 ok && world.s
                     == old(world.s).(vms := DeleteVm(old(world.s).prompt, old(world.s).vms, VmPlace(spec, names[0])),
                                                                 workers := old(world.s).workers[key := next]))
    {
      var served;
      ok, served := world.Issue(key, RemoveVm(VmPlace(spec, names[0])));
    }

    /** cleanSpoke's loop over the listed VMs. */
    method DeleteListed(key: Key, spec: Spec, names: seq<string>) returns (ok: bool)
      requires At(world.s, key) == Some(AfterFinList(spec, names))
      modifies world
      ensures Reaches(old(world.s), world.s)
      ensures At(world.s, key) == if ok then Some(FinSecret(spec)) else None
      ensures world.quiet ==>
                && ok
                && world.s == old(world.s).(vms :=
                   DeleteVms(old(world.s).prompt, old(world.s).vms, Places(spec, Elements(names))),
                                            workers := old(world.s).workers[key := FinSecret(spec)])
    {
      ghost var start := world.s;
      Runs.ReachesItself(SteadyNext, start);
      DeleteNoVms(start.prompt, start.vms, spec);
      for i := 0 to |names|
        invariant Reaches(start, world.s)
        invariant At(world.s, key) == Some(AfterFinList(spec, names[i..]))
        invariant world.quiet ==>
                  world.s == start.(vms := world.s.vms, workers := start.workers[key := AfterFinList(spec, names[i..])])
        invariant world.quiet ==> world.s.vms == DeleteVms(start.prompt, start.vms, Places(spec, Elements(names[..i])))
      {
        ghost var here := world.s;
        var deleted := DeleteNext(key, spec, names[i..]);
        Runs.ReachesFar(SteadyNext, start, here, world.s);
        if !deleted { return false; }
        DeleteOneMore(start.prompt, start.vms, spec, names, i);
      }
      assert names[..|names|] == names;
      ok := true;
    }
  }

  /** Two passes with nothing in their way: the first converges, the second
      issues no write and leaves the state the first one reached. */
  method TwoPasses(r: RequestReconciler, key: Key) returns (reached: State, secondWrites: int)
    requires key !in r.world.s.workers && r.world.quiet && Placeable(r.world.s, key)
    modifies r.world
    ensures Converged(reached, key) && Placeable(reached, key)
    ensures secondWrites == 0 && r.world.s == reached
  {
    var _ := r.Reconcile(key);
    reached := r.world.s;
    var writes := r.world.writes;
    var _ := r.Reconcile(key);
    secondWrites := r.world.writes - writes;
  }

  // ---------- StatusReconciler ----------

  /** What an undisturbed status pass does about an event on the VM at place,
      in plain terms: the status of its owner, if that is this cluster's business, and nothing else. */
  ghost predicate Told(s: State, t: State, place: Place) {
    if place !in s.vms || s.vms[place].owner.None? then t == s
    else
      var k := s.vms[place].owner.value;
      if k !in s.hub || !s.hub[k].spec.valid || s.hub[k].spec.region != place.cluster then t == s
      else
        && k in t.hub && t == s.(hub := s.hub[k := s.hub[k].(status := t.hub[k].status)])
        && t.hub[k].status.Some?
        && Reports(s, k, s.hub[k].spec, t.hub[k].status.value)
  }

  class StatusReconciler {
    const world: World

    constructor (world: World)
      ensures this.world == world
    {
      this.world := world;
    }

    /** One pass for an event on the VM at place. It fails without an engaged
        cluster and ends at once for a VM that is gone or carries no owner
        labels. Undisturbed, from the request's region, it leaves the status
        the spoke calls for; from any other cluster it leaves the hub alone. */
    method Reconcile(p: nat, place: Place) returns (ok: bool)
      requires p !in world.s.passes
      modifies world
      ensures p !in world.s.passes && Reaches(old(world.s), world.s)
      ensures world.quiet ==> var s := old(world.s);
                && ok == (place.cluster in s.engaged)
                && world.s == s.(hub := if place.cluster in s.engaged && Reported(s, place).Some?
                                        then Reported(s, place).value else s.hub)
                && if ok then Told(s, world.s, place) else world.s == s
    {
      ghost var start := world.s;
      world.Interfere(StatusPass(p));
      var reply := world.Reply();
      if reply != Ok || place.cluster !in world.s.engaged { return false; }
      ghost var here := world.s;
      world.Interfere(StatusPass(p));
      Runs.ReachesFar(SteadyNext, start, here, world.s);
      reply := world.Reply();
      if reply != Ok { return false; }
      if place !in world.s.vms || world.s.vms[place].owner.None? { return true; }
      here := world.s;
      ok := Report(p, place);
      Runs.ReachesFar(SteadyNext, start, here, world.s);
    }

    /** The hub once the spoke's status is reported for the owner of the VM at place, if it is to be. */
    static function Reported(s: State, place: Place): Option<map<Key, HubObject>> {
      if place !in s.vms || s.vms[place].owner.None? then None
      else
        var k := s.vms[place].owner.value;
        if k !in s.hub || !s.hub[k].spec.valid || s.hub[k].spec.region != place.cluster then None
        else Some(WithStatus(s.hub, k, StatusFor(s, place.cluster, k, s.hub[k].spec)))
    }

    /** The pass from the owner labels on. */
    method Report(p: nat, place: Place) returns (ok: bool)
      requires p !in world.s.passes && place in world.s.vms && world.s.vms[place].owner.Some?
      modifies world
      ensures p !in world.s.passes && Reaches(old(world.s), world.s)
      ensures world.quiet ==> var s := old(world.s);
                && ok && world.s == s.(hub := if Reported(s, place).Some? then Reported(s, place).value else s.hub)
                && Told(s, world.s, place)
    {
      ghost var start := world.s;
      var k := world.s.vms[place].owner.value;
      var found;
      ok, found := Fetch(p, place, k);
      if found.None? { return; }
      var obj := found.value;
      ghost var here := world.s;
      ok := SyncStatus(p, k, place.cluster, obj.spec, obj.status);
      Runs.ReachesFar(SteadyNext, start, here, world.s);
      if world.quiet { ReportedIs(start, here, world.s, p, place, k, obj); }
    }

    lemma ReportedIs(start: State, here: State, done: State, p: nat, place: Place, k: Key, obj: HubObject)
      requires p !in start.passes && place in start.vms && start.vms[place].owner == Some(k) && k in start.hub
      requires start.hub[k] == obj && obj.spec.valid && obj.spec.region == place.cluster
      requires here == StatusGoto(start, p, Some(StatusList(place.cluster, k, obj.spec, obj.status)))
      requires var status := StatusFor(here, place.cluster, k, obj.spec);
               done == here.(hub := Patched(here.hub, k, obj.status, status),
                             passes := here.passes - {p})
      ensures Reported(start, place).Some? && done == start.(hub := Reported(start, place).value)
      ensures Told(start, done, place)
    {
      SameListing(start, here, k, obj.spec);
      StatusForReports(start, k, obj.spec);
      WritingItAgain(start.hub, k);
      assert here.passes - {p} == start.passes;
    }

    /** No call: the pass has the VM's labels in hand. */
    method Begin(p: nat, place: Place, k: Key)
      requires p !in world.s.passes && place in world.s.vms && world.s.vms[place].owner == Some(k)
      modifies world`s
      ensures Reaches(old(world.s), world.s)
      ensures world.s == StatusGoto(old(world.s), p, Some(StatusGet(place.cluster, k)))
    {
      Runs.ReachesItself(SteadyNext, world.s);
      Runs.ReachesNext(SteadyNext, world.s, world.s, Pass(p, StatusBegin(place)),
          Step(world.s, Pass(p, StatusBegin(place))));
      world.s := StatusStep(world.s, p, StatusBegin(place));
    }

    /** The hub's request for the VM at place, unless it is not this cluster's business. */
    method Fetch(p: nat, place: Place, k: Key) returns (ok: bool, found: Option<HubObject>)
      requires p !in world.s.passes && place in world.s.vms && world.s.vms[place].owner == Some(k)
      modifies world
      ensures Reaches(old(world.s), world.s)
      ensures PassAt(world.s, p) == match found
                                    case None => None
                                    case Some(obj) => Some(StatusList(place.cluster, k, obj.spec, obj.status))
      ensures world.quiet ==>
                var s := old(world.s);
                && ok && world.s == StatusGoto(s, p, PassAt(world.s, p))
                && found == if k in s.hub && s.hub[k].spec.valid
                   && s.hub[k].spec.region == place.cluster then Some(s.hub[k]) else None
    {
      ghost var start := world.s;
      Begin(p, place, k);
      ghost var here := world.s;
      ok, found := GetOwner(p, k, place.cluster);
      Runs.ReachesFar(SteadyNext, start, here, world.s);
      StatusGotoAgain(start, p, Some(StatusGet(place.cluster, k)), PassAt(world.s, p));
    }

    lemma StatusGotoAgain(s: State, p: nat, here: Option<StatusPc>, there: Option<StatusPc>)
      requires p !in s.passes
      ensures StatusGoto(StatusGoto(s, p, here), p, there) == StatusGoto(s, p, there)
    {
    }

    method GetOwner(p: nat, k: Key, cluster: string) returns (ok: bool, found: Option<HubObject>)
      requires PassAt(world.s, p) == Some(StatusGet(cluster, k))
      modifies world
      ensures Reaches(old(world.s), world.s)
      ensures PassAt(world.s, p) == match found
                                    case None => None
                                    case Some(obj) => Some(StatusList(cluster, k, obj.spec, obj.status))
      ensures world.quiet ==>
                var s := old(world.s);
                && ok && world.s == StatusGoto(s, p, PassAt(world.s, p))
                && found == if k in s.hub && s.hub[k].spec.valid && s.hub[k].spec.region == cluster then Some(s.hub[k])
                   else None
    {
      var served;
      ok, served := world.IssueStatus(p, GetRequest(k));
      var mine := ok && k in served.hub && served.hub[k].spec.valid && served.hub[k].spec.region == cluster;
      found := if mine then Some(served.hub[k]) else None;
    }

    /** syncStatus, as the status controller calls it. */
    method SyncStatus(p: nat, k: Key, cluster: string, spec: Spec, seen: Option<Status>) returns (ok: bool)
      requires PassAt(world.s, p) == Some(StatusList(cluster, k, spec, seen))
      modifies world
      ensures p !in world.s.passes && Reaches(old(world.s), world.s)
      ensures world.quiet ==>
                var status := StatusFor(old(world.s), cluster, k, spec);
                && ok
                && world.s == old(world.s).(hub := Patched(old(world.s).hub, k, seen, status),
                                            passes := old(world.s).passes - {p})
                && (cluster == spec.region ==> Reports(old(world.s), k, spec, status))
    {
      ghost var start := world.s;
      var status;
      ok, status := ObserveVMs(p, k, cluster, spec, seen);
      if !ok || seen == Some(status) { return; }
      ghost var here := world.s;
      ok := PatchStatus(p, k, status);
      Runs.ReachesFar(SteadyNext, start, here, world.s);
    }

    method ObserveVMs(p: nat, k: Key, cluster: string, spec: Spec, seen: Option<Status>)
      returns (ok: bool, status: Status)
      requires PassAt(world.s, p) == Some(StatusList(cluster, k, spec, seen))
      modifies world
      ensures Reaches(old(world.s), world.s)
      ensures PassAt(world.s, p) == if ok && seen != Some(status) then Some(StatusPatch(k, status)) else None
      ensures world.quiet ==> ok && status == StatusFor(old(world.s), cluster, k, spec)
      ensures world.quiet && cluster == spec.region ==> Reports(old(world.s), k, spec, status)
      ensures world.quiet ==> world.s == StatusGoto(old(world.s), p, PassAt(world.s, p))
    {
      status := UnschedulableStatus(spec.region);
      var served;
      ok, served := world.IssueStatus(p, ListOwned(cluster, spec.tenant, k));
      if !ok { return; }
      var ready := world.Enumerate(ReadyNames(served, cluster, spec.tenant, k));
      status := ReadyStatus(RequestOf(k, spec), ready);
      if cluster == spec.region { StatusForReports(served, k, spec); }
    }

    method PatchStatus(p: nat, k: Key, status: Status) returns (ok: bool)
      requires PassAt(world.s, p) == Some(StatusPatch(k, status))
      modifies world
      ensures p !in world.s.passes && Reaches(old(world.s), world.s)
      ensures world.quiet ==>
                ok && world.s
                    == old(world.s).(hub := WithStatus(old(world.s).hub, k, status),
                        passes := old(world.s).passes - {p})
    {
      var served;
      ok, served := world.IssueStatus(p, WriteStatus(k, status));
    }
  }
}
