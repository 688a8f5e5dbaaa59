/** The VM placement protocol as a state machine. The state is what the API
    servers hold, plus the program point of every Reconcile call in flight.
    One event is one client call of a controller or one step of its
    environment; a call may fail, may take effect and lose its answer, and a
    controller may crash between any two calls. */
module VmProtocol {
  import opened Options
  import opened Text
  import opened VmDomain

  // ---------- State ----------

  /** A namespaced name: of a hub request, or of a hub Secret. */
  datatype Key = Key(namespace: string, name: string)

  /** The spec and tenant label of a request; valid means RequestFromObject accepts it. */
  datatype Spec = Spec(valid: bool, region: string, tenant: string, replicas: nat, secretName: string)

  datatype HubObject = HubObject(spec: Spec, marked: bool, finalizer: bool, status: Option<Status>)

  /** A spoke object's place: cluster, namespace, name. */
  datatype Place = Place(cluster: string, namespace: string, name: string)

  /** owner is the request its owner labels name; deleting, that its deletion was requested. */
  datatype Vm = Vm(owner: Option<Key>, ready: bool, deleting: bool)

  type Data = map<string, string>

  datatype Secret = Secret(owner: Option<Key>, data: Data)

  /** The next client call of a RequestReconciler pass, with what the pass has
      read so far. `seen` is the status in the pass's copy of the request. */
  datatype Pc =
    | AddFinalizer(spec: Spec)
    | GetCluster(spec: Spec, seen: Option<Status>)
    | ReadHubSecret(spec: Spec, seen: Option<Status>)
    | ReadSpokeSecret(spec: Spec, seen: Option<Status>, data: Data)
    | CreateSecret(spec: Spec, seen: Option<Status>, data: Data)
    | UpdateSecret(spec: Spec, seen: Option<Status>, data: Data)
    | ListVMs(spec: Spec, seen: Option<Status>)
    | Planning(spec: Spec, seen: Option<Status>, existing: seq<string>)
    | Applying(spec: Spec, seen: Option<Status>, plan: Plan)
    | ListForStatus(spec: Spec, seen: Option<Status>)
    | PatchStatus(status: Status)
    | FinCluster(spec: Spec)
    | FinList(spec: Spec)
    | FinVMs(spec: Spec, names: seq<string>)
    | FinSecret(spec: Spec)
    | Release

  /** The next client call of a StatusReconciler pass. */
  datatype StatusPc =
    | StatusGet(cluster: string, key: Key)
    | StatusList(cluster: string, key: Key, spec: Spec, seen: Option<Status>)
    | StatusPatch(key: Key, status: Status)

  /** prompt tells a world where a VM is gone as soon as its deletion is
      requested from one where KubeVirt takes its time. */
  datatype State = State(
    prompt: bool,
    hub: map<Key, HubObject>,
    hubSecrets: map<Key, Data>,
    engaged: set<string>,
    vms: map<Place, Vm>,
    secrets: map<Place, Secret>,
    workers: map<Key, Pc>,
    passes: map<nat, StatusPc>)

  predicate Initial(s: State) {
    s.hub == map[] && s.vms == map[] && s.secrets == map[] && s.workers == map[] && s.passes == map[]
  }

  // ---------- Events ----------

  /** Ok: the call took effect and says so. Lost: it took effect, the answer
      is an error. Failed: it did not take effect. */
  datatype Reply = Ok | Lost | Failed

  /** A step of the request controller's pass over one request. */
  datatype Act = Begin | Call(reply: Reply) | Listed(names: seq<string>) | Planned(plan: Plan) | Crash

  /** A step of one status controller pass. */
  datatype StatusAct = StatusBegin(place: Place) | StatusCall(reply: Reply)

  datatype Change =
    // users and Kro on the hub
    | UserCreate(key: Key, spec: Spec)
    | UserEdit(key: Key, spec: Spec)
    | UserDelete(key: Key)
    | HubSecretChange(key: Key, content: Option<Data>)
    // the fleet and the spokes
    | Engage(clusters: set<string>)
    | VmReadiness(place: Place, ready: bool)
    | VmGone(place: Place)
    | UserVm(place: Place)
    | SecretGone(place: Place)
    | UserSecret(place: Place, data: Data)

  /** At most one request pass per request, any number of status passes, and everybody else. */
  datatype Event = Worker(key: Key, act: Act) | Pass(pass: nat, statusAct: StatusAct) | Env(change: Change)

  // ---------- Reads ----------

  function RequestOf(k: Key, spec: Spec): Request {
    Request(k.name, k.namespace, spec.region, spec.tenant, spec.replicas, spec.secretName)
  }

  /** List with the owner labels of k; an empty namespace lists all of them. */
  function Listing(s: State, cluster: string, namespace: string, k: Key): set<Place> {
    set p | p in s.vms && p.cluster == cluster && (namespace == "" || p.namespace == namespace)
        && s.vms[p].owner == Some(k)
  }

  function OwnedNames(s: State, cluster: string, namespace: string, k: Key): set<string> {
    set p | p in Listing(s, cluster, namespace, k) :: p.name
  }

  function ReadyNames(s: State, cluster: string, namespace: string, k: Key): set<string> {
    set p | p in Listing(s, cluster, namespace, k) && s.vms[p].ready :: p.name
  }

  function StatusFor(s: State, cluster: string, k: Key, spec: Spec): Status {
    StatusOf(RequestOf(k, spec), ReadyNames(s, cluster, spec.tenant, k))
  }

  /** The request's VM of index i is there, is its own and is ready. Without a
      tenant it may be in any namespace. */
  predicate ReadyAt(s: State, k: Key, spec: Spec, i: nat) {
    if spec.tenant != "" then
      var p := Place(spec.region, spec.tenant, k.name + "-" + Itoa(i));
      p in s.vms && s.vms[p].owner == Some(k) && s.vms[p].ready
    else
      exists p :: p in s.vms && p.cluster == spec.region && p.name == k.name + "-" + Itoa(i) &&
                  s.vms[p].owner == Some(k) && s.vms[p].ready
  }

  /** The status says how many of the request's VMs are ready, Ready if all of them are and Pending otherwise. */
  predicate Reports(s: State, k: Key, spec: Spec, status: Status) {
    && status.region == spec.region && status.message == NoMessage
    && status.readyReplicas == |set i | 0 <= i < spec.replicas && ReadyAt(s, k, spec, i)|
    && status.phase == if forall i :: 0 <= i < spec.replicas ==> ReadyAt(s, k, spec, i) then Ready else Pending
  }

  /** Listing by owner labels, in plain terms: the names of the VMs of that
      owner on that cluster and, unless it is empty, in that namespace. */
  lemma ListedMeans(s: State, cluster: string, namespace: string, k: Key, name: string)
    ensures name in OwnedNames(s, cluster, namespace, k) <==>
            exists p :: p in s.vms && p.cluster == cluster && (namespace == "" || p.namespace == namespace) &&
                        p.name == name && s.vms[p].owner == Some(k)
    ensures name in ReadyNames(s, cluster, namespace, k) <==>
            exists p :: p in s.vms && p.cluster == cluster && (namespace == "" || p.namespace == namespace) &&
                        p.name == name && s.vms[p].owner == Some(k) && s.vms[p].ready
  {
    if p :| p in s.vms && p.cluster == cluster && (namespace == "" || p.namespace == namespace) &&
            p.name == name && s.vms[p].owner == Some(k) {
      assert p in Listing(s, cluster, namespace, k);
    }
    if p :| p in s.vms && p.cluster == cluster && (namespace == "" || p.namespace == namespace) &&
            p.name == name && s.vms[p].owner == Some(k) && s.vms[p].ready {
      assert p in Listing(s, cluster, namespace, k) && s.vms[p].ready;
    }
  }

  /** The status the spoke calls for, in plain terms. */
  lemma StatusForReports(s: State, k: Key, spec: Spec)
    ensures Reports(s, k, spec, StatusFor(s, spec.region, k, spec))
  {
    var ready := ReadyNames(s, spec.region, spec.tenant, k);
    forall i | 0 <= i < spec.replicas ensures ReadyAt(s, k, spec, i) <==> VMName(k.name, i) in ready {
      ReadyHere(s, k, spec, i);
    }
    StatusOfMeans(RequestOf(k, spec), ready);
    assert (set i | 0 <= i < spec.replicas && ReadyAt(s, k, spec, i))
           == (set i | 0 <= i < spec.replicas && VMName(k.name, i) in ready);
  }

  lemma ReadyHere(s: State, k: Key, spec: Spec, i: nat)
    ensures ReadyAt(s, k, spec, i) <==> VMName(k.name, i) in ReadyNames(s, spec.region, spec.tenant, k)
  {
    var place := Place(spec.region, spec.tenant, VMName(k.name, i));
    ListedMeans(s, spec.region, spec.tenant, k, VMName(k.name, i));
    forall p: Place | p.cluster == spec.region && p.namespace == spec.tenant && p.name == VMName(k.name, i)
      ensures p == place
    {
    }
    assert VMName(k.name, i) == k.name + "-" + Itoa(i);
  }

  function SecretPlace(spec: Spec): Place { Place(spec.region, spec.tenant, spec.secretName) }

  function VmPlace(spec: Spec, name: string): Place { Place(spec.region, spec.tenant, name) }

  // ---------- Effects of writes ----------

  /** The VM a call creates or deletes, if any. */
  datatype VmChange = Nothing | Creates(place: Place) | Deletes(place: Place)

  function CreateVm(vms: map<Place, Vm>, p: Place, k: Key): map<Place, Vm> {
    if p in vms then vms else vms[p := Vm(Some(k), false, false)]
  }

  function DeleteVm(prompt: bool, vms: map<Place, Vm>, p: Place): map<Place, Vm> {
    if p !in vms then vms
    else if prompt then vms - {p}
    else vms[p := vms[p].(deleting := true)]
  }

  function ChangeVms(prompt: bool, vms: map<Place, Vm>, k: Key, change: VmChange): map<Place, Vm> {
    match change
    case Nothing => vms
    case Creates(p) => CreateVm(vms, p, k)
    case Deletes(p) => DeleteVm(prompt, vms, p)
  }

  function WithStatus(hub: map<Key, HubObject>, k: Key, status: Status): map<Key, HubObject> {
    if k in hub then hub[k := hub[k].(status := Some(status))] else hub
  }

  /** An object leaves the hub once it is marked and carries no finalizer. */
  function WithoutFinalizer(hub: map<Key, HubObject>, k: Key): map<Key, HubObject> {
    if k !in hub then hub
    else if hub[k].marked then hub - {k}
    else hub[k := hub[k].(finalizer := false)]
  }

  function Put<K, V>(m: map<K, V>, k: K, v: Option<V>): map<K, V> {
    match v
    case None => m - {k}
    case Some(x) => m[k := x]
  }

  // ---------- The request controller ----------

  function Goto(s: State, k: Key, pc: Option<Pc>): State { s.(workers := Put(s.workers, k, pc)) }

  /** patchStatus: no call when the pass's copy already shows the status. */
  function StatusTail(seen: Option<Status>, status: Status): Option<Pc> {
    if seen == Some(status) then None else Some(PatchStatus(status))
  }

  /** Where a pass goes once it has read the request. */
  function AfterGet(obj: HubObject): Option<Pc> {
    if obj.marked then
      if !obj.finalizer then None
      else if obj.spec.valid && obj.spec.tenant != "" then Some(FinCluster(obj.spec))
      else Some(Release)
    else if !obj.spec.valid then None
    else if obj.spec.tenant == "" then StatusTail(obj.status, MissingTenantStatus(obj.spec.region))
    else if !obj.finalizer then Some(AddFinalizer(obj.spec))
    else Some(GetCluster(obj.spec, obj.status))
  }

  function AfterPlan(spec: Spec, seen: Option<Status>, plan: Plan): Pc {
    if plan == Plan([], []) then ListForStatus(spec, seen) else Applying(spec, seen, plan)
  }

  function AfterFinList(spec: Spec, names: seq<string>): Pc {
    if names == [] then FinSecret(spec) else FinVMs(spec, names)
  }

  /** Whether the API server would carry out the call at pc; if not, it answers with an error. */
  predicate Accepts(s: State, k: Key, pc: Pc) {
    match pc
    case AddFinalizer(_) => k in s.hub && (s.hub[k].finalizer || !s.hub[k].marked)
    case ReadHubSecret(spec, _) => Key(k.namespace, spec.secretName) in s.hubSecrets
    case CreateSecret(spec, _, _) => SecretPlace(spec) !in s.secrets
    case UpdateSecret(spec, _, _) => SecretPlace(spec) in s.secrets
    case PatchStatus(_) => k in s.hub
    case _ => true
  }

  function VmChangeOf(pc: Pc): VmChange {
    match pc
    case Applying(spec, _, plan) =>
      if plan.create != [] then Creates(VmPlace(spec, plan.create[0]))
      else if plan.delete != [] then Deletes(VmPlace(spec, plan.delete[0]))
      else Nothing
    case FinVMs(spec, names) => if names == [] then Nothing else Deletes(VmPlace(spec, names[0]))
    case _ => Nothing
  }

  function HubEffect(hub: map<Key, HubObject>, k: Key, pc: Pc): map<Key, HubObject> {
    match pc
    case AddFinalizer(_) => if k in hub then hub[k := hub[k].(finalizer := true)] else hub
    case PatchStatus(status) => WithStatus(hub, k, status)
    case Release => WithoutFinalizer(hub, k)
    case _ => hub
  }

  function SecretEffect(secrets: map<Place, Secret>, k: Key, pc: Pc): map<Place, Secret> {
    match pc
    case CreateSecret(spec, _, data) => secrets[SecretPlace(spec) := Secret(Some(k), data)]
    case UpdateSecret(spec, _, data) =>
      var p := SecretPlace(spec);
      if p in secrets then secrets[p := secrets[p].(data := data)] else secrets
    case FinSecret(spec) => secrets - {SecretPlace(spec)}
    case _ => secrets
  }

  /** What the call at pc does when the API servers carry it out. */
  function Effect(s: State, k: Key, pc: Pc): State {
    s.(hub := HubEffect(s.hub, k, pc),
       vms := ChangeVms(s.prompt, s.vms, k, VmChangeOf(pc)),
       secrets := SecretEffect(s.secrets, k, pc))
  }

  /** Where an answered call leads; s is the state after it. */
  function Next(s: State, k: Key, pc: Pc): Option<Pc> {
    match pc
    case AddFinalizer(spec) => Some(GetCluster(spec, if k in s.hub then s.hub[k].status else None))
    case GetCluster(spec, seen) =>
      if spec.region in s.engaged then Some(ReadHubSecret(spec, seen))
      else StatusTail(seen, UnschedulableStatus(spec.region))
    case ReadHubSecret(spec, seen) =>
      var source := Key(k.namespace, spec.secretName);
      if source in s.hubSecrets then Some(ReadSpokeSecret(spec, seen, s.hubSecrets[source])) else None
    case ReadSpokeSecret(spec, seen, data) =>
      if SecretPlace(spec) !in s.secrets then Some(CreateSecret(spec, seen, data))
      else if s.secrets[SecretPlace(spec)].data == data then Some(ListVMs(spec, seen))
      else Some(UpdateSecret(spec, seen, data))
    case CreateSecret(spec, seen, _) => Some(ListVMs(spec, seen))
    case UpdateSecret(spec, seen, _) => Some(ListVMs(spec, seen))
    case Applying(spec, seen, plan) =>
      Some(AfterPlan(spec, seen, if plan.create != [] then plan.(create := plan.create[1..])
                                 else if plan.delete != [] then plan.(delete := plan.delete[1..])
                                 else plan))
    case ListForStatus(spec, seen) => StatusTail(seen, StatusFor(s, spec.region, k, spec))
    case PatchStatus(_) => None
    case FinCluster(spec) => Some(if spec.region in s.engaged then FinList(spec) else Release)
    case FinVMs(spec, names) => Some(AfterFinList(spec, if names == [] then [] else names[1..]))
    case FinSecret(_) => Some(Release)
    case Release => None
    // Answered by Listed and Planned.
    case ListVMs(_, _) => None
    case Planning(_, _, _) => None
    case FinList(_) => None
  }

  function CallStep(s: State, k: Key, reply: Reply): State
    requires k in s.workers
  {
    var pc := s.workers[k];
    var done := reply != Failed && Accepts(s, k, pc);
    var after := if done then Effect(s, k, pc) else s;
    Goto(after, k, if done && reply == Ok then Next(after, k, pc) else None)
  }

  predicate NeedsListing(pc: Pc) { pc.ListVMs? || pc.Planning? || pc.FinList? }

  predicate ActEnabled(s: State, k: Key, act: Act) {
    match act
    case Begin => k !in s.workers
    case Call(reply) => k in s.workers && (NeedsListing(s.workers[k]) ==> reply == Failed)
    case Listed(names) =>
      k in s.workers && (s.workers[k].ListVMs? || s.workers[k].FinList?) && Distinct(names) &&
      Elements(names) == OwnedNames(s, s.workers[k].spec.region, s.workers[k].spec.tenant, k)
    case Planned(plan) =>
      k in s.workers && s.workers[k].Planning? &&
      IsPlan(RequestOf(k, s.workers[k].spec), Elements(s.workers[k].existing), plan)
    case Crash => k in s.workers
  }

  function AfterList(pc: Pc, names: seq<string>): Option<Pc> {
    match pc
    case ListVMs(spec, seen) => Some(Planning(spec, seen, names))
    case FinList(spec) => Some(AfterFinList(spec, names))
    case _ => None
  }

  function ActStep(s: State, k: Key, act: Act): State
    requires ActEnabled(s, k, act)
  {
    match act
    case Begin => Goto(s, k, if k in s.hub then AfterGet(s.hub[k]) else None)
    case Call(reply) => CallStep(s, k, reply)
    case Listed(names) => Goto(s, k, AfterList(s.workers[k], names))
    case Planned(plan) => Goto(s, k, Some(AfterPlan(s.workers[k].spec, s.workers[k].seen, plan)))
    case Crash => Goto(s, k, None)
  }

  // ---------- The status controller ----------

  function StatusGoto(s: State, p: nat, pc: Option<StatusPc>): State { s.(passes := Put(s.passes, p, pc)) }

  function StatusNext(s: State, pc: StatusPc): Option<StatusPc> {
    match pc
    case StatusGet(cluster, k) =>
      if k in s.hub && s.hub[k].spec.valid && s.hub[k].spec.region == cluster
      then Some(StatusList(cluster, k, s.hub[k].spec, s.hub[k].status)) else None
    case StatusList(cluster, k, spec, seen) =>
      var status := StatusFor(s, cluster, k, spec);
      if seen == Some(status) then None else Some(StatusPatch(k, status))
    case StatusPatch(_, _) => None
  }

  /** A pass starts from a VM with owner labels. Its cluster was engaged when
      the pass took hold of it, and may have been disengaged since. */
  predicate StatusEnabled(s: State, p: nat, act: StatusAct) {
    match act
    case StatusBegin(place) => p !in s.passes && place in s.vms && s.vms[place].owner.Some?
    case StatusCall(_) => p in s.passes
  }

  function StatusStep(s: State, p: nat, act: StatusAct): State
    requires StatusEnabled(s, p, act)
  {
    match act
    case StatusBegin(place) => StatusGoto(s, p, Some(StatusGet(place.cluster, s.vms[place].owner.value)))
    case StatusCall(reply) =>
      var pc := s.passes[p];
      var after := s.(hub := if reply != Failed && pc.StatusPatch? then WithStatus(s.hub, pc.key, pc.status)
          else s.hub);
      StatusGoto(after, p, if reply == Ok then StatusNext(after, pc) else None)
  }

  // ---------- The environment ----------

  predicate ChangeEnabled(s: State, c: Change) {
    match c
    case UserCreate(k, _) => k !in s.hub
    case UserEdit(k, _) => k in s.hub
    case UserDelete(k) => k in s.hub
    case VmReadiness(place, _) => place in s.vms
    case VmGone(place) => place in s.vms
    case UserVm(place) => place !in s.vms
    case SecretGone(place) => place in s.secrets
    case UserSecret(place, _) => place !in s.secrets
    case HubSecretChange(_, _) => true
    case Engage(_) => true
  }

  function HubAfter(hub: map<Key, HubObject>, c: Change): map<Key, HubObject> {
    match c
    case UserCreate(k, spec) => hub[k := HubObject(spec, false, false, None)]
    case UserEdit(k, spec) => if k in hub then hub[k := hub[k].(spec := spec)] else hub
    case UserDelete(k) => if k in hub && hub[k].finalizer then hub[k := hub[k].(marked := true)] else hub - {k}
    case _ => hub
  }

  function VmsAfter(vms: map<Place, Vm>, c: Change): map<Place, Vm> {
    match c
    case VmReadiness(p, ready) => if p in vms then vms[p := vms[p].(ready := ready)] else vms
    case VmGone(p) => vms - {p}
    case UserVm(p) => vms[p := Vm(None, false, false)]
    case _ => vms
  }

  function SecretsAfter(secrets: map<Place, Secret>, c: Change): map<Place, Secret> {
    match c
    case SecretGone(p) => secrets - {p}
    case UserSecret(p, data) => secrets[p := Secret(None, data)]
    case _ => secrets
  }

  function ChangeStep(s: State, c: Change): State {
    s.(hub := HubAfter(s.hub, c),
       hubSecrets := if c.HubSecretChange? then Put(s.hubSecrets, c.key, c.content) else s.hubSecrets,
       engaged := if c.Engage? then c.clusters else s.engaged,
       vms := VmsAfter(s.vms, c),
       secrets := SecretsAfter(s.secrets, c))
  }

  // ---------- Steps ----------

  predicate Enabled(s: State, e: Event) {
    match e
    case Worker(k, act) => ActEnabled(s, k, act)
    case Pass(p, act) => StatusEnabled(s, p, act)
    case Env(c) => ChangeEnabled(s, c)
  }

  function Step(s: State, e: Event): State
    requires Enabled(s, e)
  {
    match e
    case Worker(k, act) => ActStep(s, k, act)
    case Pass(p, act) => StatusStep(s, p, act)
    case Env(c) => ChangeStep(s, c)
  }

  // ---------- What a step leaves alone ----------

  lemma CallVms(s: State, k: Key, reply: Reply)
    requires k in s.workers
    ensures CallStep(s, k, reply).vms == if reply == Failed then s.vms
            else ChangeVms(s.prompt, s.vms, k, VmChangeOf(s.workers[k]))
  {
    var pc := s.workers[k];
    if !Accepts(s, k, pc) { assert VmChangeOf(pc) == Nothing; }
  }

  lemma HubEffectFrame(hub: map<Key, HubObject>, k: Key, pc: Pc)
    ensures var after := HubEffect(hub, k, pc);
            forall j :: j in after ==> j in hub && after[j].marked == hub[j].marked && after[j].spec == hub[j].spec
  {
  }

  lemma CallFrame(s: State, k: Key, reply: Reply)
    requires k in s.workers
    ensures var t := CallStep(s, k, reply);
            && t.passes == s.passes && t.prompt == s.prompt && t.engaged == s.engaged && t.hubSecrets == s.hubSecrets
            && t.workers - {k} == s.workers - {k}
            && forall j :: j in t.hub ==>
               j in s.hub && t.hub[j].marked == s.hub[j].marked && t.hub[j].spec == s.hub[j].spec
  {
    HubEffectFrame(s.hub, k, s.workers[k]);
  }

  lemma ActFrame(s: State, k: Key, act: Act)
    requires ActEnabled(s, k, act)
    ensures var t := ActStep(s, k, act);
            && t.passes == s.passes && t.prompt == s.prompt && t.engaged == s.engaged && t.hubSecrets == s.hubSecrets
            && t.workers - {k} == s.workers - {k}
            && (!act.Call? ==> t.vms == s.vms && t.hub == s.hub && t.secrets == s.secrets)
            && forall j :: j in t.hub ==>
               j in s.hub && t.hub[j].marked == s.hub[j].marked && t.hub[j].spec == s.hub[j].spec
  {
    if act.Call? { CallFrame(s, k, act.reply); }
  }

  lemma StatusFrame(s: State, p: nat, act: StatusAct)
    requires StatusEnabled(s, p, act)
    ensures var t := StatusStep(s, p, act);
            && t == s.(hub := t.hub, passes := t.passes)
            && forall k :: k in t.hub ==> k in s.hub && t.hub[k] == s.hub[k].(status := t.hub[k].status)
  {
  }

  /** What an event does to the VMs. */
  function VmsOf(s: State, e: Event): map<Place, Vm>
    requires Enabled(s, e)
  {
    match e
    case Worker(k, Call(reply)) => if reply == Failed then s.vms
         else ChangeVms(s.prompt, s.vms, k, VmChangeOf(s.workers[k]))
    case Env(c) => VmsAfter(s.vms, c)
    case _ => s.vms
  }

  lemma StepVms(s: State, e: Event)
    requires Enabled(s, e)
    ensures Step(s, e).vms == VmsOf(s, e) && Step(s, e).prompt == s.prompt
  {
    match e {
      case Worker(k, act) => ActFrame(s, k, act); if act.Call? { CallVms(s, k, act.reply); }
      case Pass(p, act) => StatusFrame(s, p, act);
      case Env(_) =>
    }
  }

  predicate Moves(e: Event, k: Key) { e.Worker? && e.key == k }

  lemma StepWorkers(s: State, e: Event, k: Key)
    requires Enabled(s, e) && !Moves(e, k)
    ensures k in Step(s, e).workers <==> k in s.workers
    ensures k in s.workers ==> Step(s, e).workers[k] == s.workers[k]
  {
    match e {
      case Worker(j, act) =>
        ActFrame(s, j, act);
        assert k in Step(s, e).workers - {j} <==> k in s.workers - {j};
        assert k in s.workers ==> (s.workers - {j})[k] == s.workers[k];
      case Pass(p, act) => StatusFrame(s, p, act);
      case Env(_) =>
    }
  }

  lemma NeverUnmarks(s: State, e: Event, k: Key)
    requires Enabled(s, e) && !(e.Env? && e.change.UserCreate? && e.change.key == k)
    ensures k in Step(s, e).hub ==> k in s.hub && (s.hub[k].marked ==> Step(s, e).hub[k].marked)
  {
    match e {
      case Worker(j, act) => ActFrame(s, j, act);
      case Pass(p, act) => StatusFrame(s, p, act);
      case Env(_) =>
    }
  }

  // ---------- Runs ----------

  /** Everything placement depends on; the replica count is not part of it. */
  predicate SamePlace(a: Spec, b: Spec) { a.(replicas := 0) == b.(replicas := 0) }

  /** What the platform guarantees of every request: its tenant label is its
      namespace or missing, and its replica count is a Go int. */
  predicate WellLabelled(k: Key, spec: Spec) {
    k.namespace != "" && (spec.tenant == "" || spec.tenant == k.namespace) && spec.replicas <= MAX_INT
  }

  /** The request owns a Secret or a VM not yet asked to go, or a pass over it is in flight. */
  predicate InUse(s: State, k: Key) {
    || k in s.workers
    || (exists p :: p in s.vms && s.vms[p].owner == Some(k) && !s.vms[p].deleting)
    || (exists p :: p in s.secrets && s.secrets[p].owner == Some(k))
  }

  /** The assumption on the environment: while a request is in use, its
      placement does not move and its cluster stays engaged. */
  predicate Steady(s: State, e: Event) { e.Env? ==> SteadyChange(s, e.change) }

  predicate SteadyChange(s: State, c: Change) {
    match c
    case UserCreate(k, spec) =>
      WellLabelled(k, spec) &&
      (k in s.workers && s.workers[k].AddFinalizer? ==> SamePlace(s.workers[k].spec, spec))
    case UserEdit(k, spec) =>
      WellLabelled(k, spec) && (k in s.hub && InUse(s, k) ==> SamePlace(s.hub[k].spec, spec))
    case Engage(clusters) =>
      forall k :: k in s.hub && InUse(s, k) && s.hub[k].spec.region in s.engaged ==> s.hub[k].spec.region in clusters
    case _ => true
  }

  predicate Possible(s: State, es: seq<Event>)
    decreases |es|
  {
    es == [] || (Enabled(s, es[0]) && Possible(Step(s, es[0]), es[1..]))
  }

  function Run(s: State, es: seq<Event>): State
    requires Possible(s, es)
    decreases |es|
  {
    if es == [] then s else Run(Step(s, es[0]), es[1..])
  }

  /** A possible run all of whose events are steady. */
  predicate SteadyRun(s: State, es: seq<Event>)
    decreases |es|
  {
    es == [] || (Enabled(s, es[0]) && Steady(s, es[0]) && SteadyRun(Step(s, es[0]), es[1..]))
  }
}
