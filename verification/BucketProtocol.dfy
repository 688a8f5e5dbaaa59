/** The bucket placement protocol for one request name, as a state machine: the
    hub object, its claims on the spokes, the pass of the request controller
    over it, any number of status passes, and everybody else. */
module BucketProtocol {
  import opened Options
  import opened Text
  import opened BucketDomain

  // ---------- State ----------

  datatype Spec = Spec(valid: bool, region: string, tenant: string)

  datatype HubObject = HubObject(spec: Spec, marked: bool, finalizer: bool, status: Option<Status>)

  /** Where a claim of the request's name may be. */
  datatype Place = Place(cluster: string, tenant: string)

  datatype Config = Config(host: string, port: string)

  /** ours: it carries the request's owner labels. config: the ConfigMap Rook writes beside it. */
  datatype SpokeClaim = SpokeClaim(ours: bool, phase: string, config: Option<Config>, deleting: bool)

  datatype Pc =
    | AddFinalizer(spec: Spec)
    | ListProfiles(spec: Spec, seen: Option<Status>)
    | GetCluster(spec: Spec, seen: Option<Status>, cluster: string)
    | GetClaim(spec: Spec, seen: Option<Status>, cluster: string)
    | CreateClaim(spec: Spec, seen: Option<Status>, cluster: string)
    | ReadClaim(spec: Spec, seen: Option<Status>, cluster: string)
    | ReadConfig(spec: Spec, seen: Option<Status>, cluster: string)
    | PatchStatus(status: Status)
    | FinProfiles(spec: Spec)
    | FinCluster(spec: Spec, cluster: string)
    | DeleteClaim(spec: Spec, cluster: string)
    | CheckGone(spec: Spec, cluster: string)
    | Release

  datatype StatusPc =
    | StatusGet(cluster: string)
    | StatusProfiles(cluster: string, spec: Spec, seen: Option<Status>)
    | StatusClaim(cluster: string, spec: Spec, seen: Option<Status>)
    | StatusConfig(cluster: string, spec: Spec, seen: Option<Status>)
    | StatusPatch(status: Status)

  /** name and namespace are the request's; profiles maps the listed
      ClusterProfiles to their region label. */
  datatype State = State(
    name: string,
    namespace: string,
    hub: Option<HubObject>,
    profiles: map<string, string>,
    engaged: set<string>,
    claims: map<Place, SpokeClaim>,
    worker: Option<Pc>,
    passes: map<nat, StatusPc>)

  predicate Initial(s: State) { s.hub == None && s.claims == map[] && s.worker == None && s.passes == map[] }

  // ---------- Events ----------

  datatype Reply = Ok | Lost | Failed

  datatype Act = Begin | Call(reply: Reply) | Crash

  datatype StatusAct = StatusBegin(place: Place) | StatusCall(reply: Reply)

  datatype Change =
    | UserCreate(spec: Spec)
    | UserEdit(spec: Spec)
    | UserDelete
    | Fleet(profiles: map<string, string>, engaged: set<string>)
    | ClaimProgress(place: Place, phase: string, config: Option<Config>)
    | ClaimGone(place: Place)
    | UserClaim(place: Place)

  datatype Event = Worker(act: Act) | Pass(pass: nat, statusAct: StatusAct) | Env(change: Change)

  // ---------- Reads ----------

  function Offering(profiles: map<string, string>, region: string): set<string> {
    set n | n in profiles && profiles[n] == region
  }

  function Resolve(profiles: map<string, string>, region: string): Option<string> {
    var names := Offering(profiles, region);
    if names == {} then None else Some(Least(names))
  }

  function Least(names: set<string>): (least: string)
    requires names != {}
    ensures IsLeast(least, names)
  {
    assert exists n :: IsLeast(n, names) by { var n := LeastExists(names); assert IsLeast(n, names); }
    assert forall a, b :: IsLeast(a, names) && IsLeast(b, names) ==> a == b by {
      forall a, b | IsLeast(a, names) && IsLeast(b, names) ensures a == b { LeastUnique(a, b, names); }
    }
    var n :| n in names && IsLeast(n, names);
    n
  }

  /** The profile offers the region, and none that comes before it does. */
  predicate Offers(profiles: map<string, string>, region: string, name: string) {
    && name in profiles && profiles[name] == region
    && forall n :: n in profiles && profiles[n] == region ==> n == name || ComesFirst(name, n)
  }

  /** Resolve in plain terms. */
  lemma ResolveMeans(profiles: map<string, string>, region: string)
    ensures Resolve(profiles, region).None? <==> forall n :: n in profiles ==> profiles[n] != region
    ensures forall name :: Resolve(profiles, region) == Some(name) <==> Offers(profiles, region, name)
  {
    var names := Offering(profiles, region);
    assert forall n :: n in profiles && profiles[n] == region ==> n in names;
    forall name ensures Resolve(profiles, region) == Some(name) <==> Offers(profiles, region, name) {
      forall n | n in names ensures Less(name, n) <==> ComesFirst(name, n) { LessIs(name, n); }
      if Offers(profiles, region, name) {
        assert IsLeast(name, names);
        LeastUnique(name, Least(names), names);
      }
    }
  }

  function RequestOf(s: State, spec: Spec): Request { Request(s.name, s.namespace, spec.region, spec.tenant) }

  /** ClaimOf: a Bound claim shows its endpoint once the ConfigMap is there. */
  function View(claims: map<Place, SpokeClaim>, p: Place): Claim {
    if p !in claims then NO_CLAIM
    else if claims[p].phase == BOUND && claims[p].config.Some?
    then Claim(BOUND, claims[p].config.value.host, claims[p].config.value.port)
    else Claim(claims[p].phase, "", "")
  }

  /** The claim without its ConfigMap. */
  function PhaseOf(claims: map<Place, SpokeClaim>, p: Place): Claim {
    if p in claims then Claim(claims[p].phase, "", "") else NO_CLAIM
  }

  function StatusFor(s: State, cluster: string, spec: Spec): Status {
    StatusOf(RequestOf(s, spec), View(s.claims, Place(cluster, spec.tenant)))
  }

  /** The status says what the claim on that cluster shows: its endpoint, if it is Bound and its ConfigMap has a host.
      */
  predicate Reports(s: State, cluster: string, spec: Spec, status: Status) {
    var p := Place(cluster, spec.tenant);
    if p in s.claims && s.claims[p].phase == "Bound" && s.claims[p].config.Some? && s.claims[p].config.value.host != ""
    then
      var c := s.claims[p].config.value;
      status == Status(spec.region, Ready, spec.tenant + "-" + s.name,
                       "http://" + c.host + if c.port == "" then "" else ":" + c.port, NoMessage)
    else status == Status(spec.region, Pending, spec.tenant + "-" + s.name, "", NoMessage)
  }

  lemma StatusForReports(s: State, cluster: string, spec: Spec)
    ensures forall status :: status == StatusFor(s, cluster, spec) <==> Reports(s, cluster, spec, status)
  {
    StatusOfMeans(RequestOf(s, spec), View(s.claims, Place(cluster, spec.tenant)));
  }

  // ---------- The request controller ----------

  function StatusTail(seen: Option<Status>, status: Status): Option<Pc> {
    if seen == Some(status) then None else Some(PatchStatus(status))
  }

  function AfterGet(obj: HubObject): Option<Pc> {
    if obj.marked then
      if !obj.finalizer then None
      else if obj.spec.valid && obj.spec.tenant != "" then Some(FinProfiles(obj.spec))
      else Some(Release)
    else if !obj.spec.valid then None
    else if obj.spec.tenant == "" then StatusTail(obj.status, MissingTenantStatus(obj.spec.region))
    else if !obj.finalizer then Some(AddFinalizer(obj.spec))
    else Some(ListProfiles(obj.spec, obj.status))
  }

  predicate Accepts(s: State, pc: Pc) {
    match pc
    case AddFinalizer(_) => s.hub.Some? && (s.hub.value.finalizer || !s.hub.value.marked)
    case PatchStatus(_) => s.hub.Some?
    case _ => true
  }

  function HubEffect(hub: Option<HubObject>, pc: Pc): Option<HubObject> {
    if hub.None? then None
    else
      match pc
      case AddFinalizer(_) => Some(hub.value.(finalizer := true))
      case PatchStatus(status) => Some(hub.value.(status := Some(status)))
      case Release => if hub.value.marked then None else Some(hub.value.(finalizer := false))
      case _ => hub
  }

  /** Create finds a claim of that name already there and leaves it; Delete only asks, Rook takes it away. */
  function ClaimEffect(claims: map<Place, SpokeClaim>, pc: Pc): map<Place, SpokeClaim> {
    match pc
    case CreateClaim(spec, _, cluster) =>
      var p := Place(cluster, spec.tenant);
      if p in claims then claims else claims[p := SpokeClaim(true, "", None, false)]
    case DeleteClaim(spec, cluster) =>
      var p := Place(cluster, spec.tenant);
      if p in claims then claims[p := claims[p].(deleting := true)] else claims
    case _ => claims
  }

  function Effect(s: State, pc: Pc): State {
    s.(hub := HubEffect(s.hub, pc), claims := ClaimEffect(s.claims, pc))
  }

  function Next(s: State, pc: Pc): Option<Pc> {
    match pc
    case AddFinalizer(spec) => Some(ListProfiles(spec, if s.hub.Some? then s.hub.value.status else None))
    case ListProfiles(spec, seen) =>
      (match Resolve(s.profiles, spec.region)
       case None => StatusTail(seen, UnschedulableStatus(spec.region))
       case Some(cluster) => Some(GetCluster(spec, seen, cluster)))
    case GetCluster(spec, seen, cluster) =>
      if cluster in s.engaged
      then Some(GetClaim(spec, seen, cluster))
      else StatusTail(seen, UnschedulableStatus(spec.region))
    case GetClaim(spec, seen, cluster) =>
      var found := Place(cluster, spec.tenant) in s.claims;
      Some(if found then ReadClaim(spec, seen, cluster) else CreateClaim(spec, seen, cluster))
    case CreateClaim(spec, seen, cluster) => Some(ReadClaim(spec, seen, cluster))
    case ReadClaim(spec, seen, cluster) =>
      var p := Place(cluster, spec.tenant);
      if p in s.claims && s.claims[p].phase == BOUND then Some(ReadConfig(spec, seen, cluster))
      else StatusTail(seen, StatusOf(RequestOf(s, spec), PhaseOf(s.claims, p)))
    case ReadConfig(spec, seen, cluster) =>
      StatusTail(seen, StatusOf(RequestOf(s, spec), ReadConfigMap(s.claims, Place(cluster, spec.tenant))))
    case PatchStatus(_) => None
    case FinProfiles(spec) =>
      (match Resolve(s.profiles, spec.region)
       case None => Some(Release)
       case Some(cluster) => Some(FinCluster(spec, cluster)))
    case FinCluster(spec, cluster) => Some(if cluster in s.engaged then DeleteClaim(spec, cluster) else Release)
    case DeleteClaim(spec, cluster) => Some(CheckGone(spec, cluster))
    case CheckGone(spec, cluster) => if Place(cluster, spec.tenant) in s.claims then None else Some(Release)
    case Release => None
  }

  /** The claim was seen Bound; its ConfigMap is read on its own. */
  function ReadConfigMap(claims: map<Place, SpokeClaim>, p: Place): Claim {
    if p in claims && claims[p].config.Some? then Claim(BOUND, claims[p].config.value.host, claims[p].config.value.port)
    else Claim(BOUND, "", "")
  }

  predicate ActEnabled(s: State, act: Act) { if act.Begin? then s.worker.None? else s.worker.Some? }

  function ActStep(s: State, act: Act): State
    requires ActEnabled(s, act)
  {
    match act
    case Begin => s.(worker := if s.hub.Some? then AfterGet(s.hub.value) else None)
    case Call(reply) => CallStep(s, reply)
    case Crash => s.(worker := None)
  }

  function CallStep(s: State, reply: Reply): State
    requires s.worker.Some?
  {
    var pc := s.worker.value;
    var done := reply != Failed && Accepts(s, pc);
    var after := if done then Effect(s, pc) else s;
    after.(worker := if done && reply == Ok then Next(after, pc) else None)
  }

  // ---------- The status controller ----------

  function StatusEnd(seen: Option<Status>, status: Status): Option<StatusPc> {
    if seen == Some(status) then None else Some(StatusPatch(status))
  }

  function StatusNext(s: State, pc: StatusPc): Option<StatusPc> {
    match pc
    case StatusGet(cluster) =>
      if s.hub.Some? && s.hub.value.spec.valid
      then Some(StatusProfiles(cluster, s.hub.value.spec, s.hub.value.status))
      else None
    case StatusProfiles(cluster, spec, seen) =>
      if Resolve(s.profiles, spec.region) == Some(cluster) then Some(StatusClaim(cluster, spec, seen)) else None
    case StatusClaim(cluster, spec, seen) =>
      var p := Place(cluster, spec.tenant);
      if p in s.claims && s.claims[p].phase == BOUND then Some(StatusConfig(cluster, spec, seen))
      else StatusEnd(seen, StatusOf(RequestOf(s, spec), PhaseOf(s.claims, p)))
    case StatusConfig(cluster, spec, seen) =>
      StatusEnd(seen, StatusOf(RequestOf(s, spec), ReadConfigMap(s.claims, Place(cluster, spec.tenant))))
    case StatusPatch(_) => None
  }

  /** A pass starts from a claim with owner labels. Its cluster was engaged
      when the pass took hold of it, and may have been disengaged since. */
  predicate StatusEnabled(s: State, p: nat, act: StatusAct) {
    match act
    case StatusBegin(place) => p !in s.passes && place in s.claims && s.claims[place].ours
    case StatusCall(_) => p in s.passes
  }

  function Put<K, V>(m: map<K, V>, k: K, v: Option<V>): map<K, V> {
    match v
    case None => m - {k}
    case Some(x) => m[k := x]
  }

  function StatusStep(s: State, p: nat, act: StatusAct): State
    requires StatusEnabled(s, p, act)
  {
    match act
    case StatusBegin(place) => s.(passes := s.passes[p := StatusGet(place.cluster)])
    case StatusCall(reply) =>
      var pc := s.passes[p];
      var writes := reply != Failed && pc.StatusPatch? && s.hub.Some?;
      var after := s.(hub := if writes then Some(s.hub.value.(status := Some(pc.status))) else s.hub);
      after.(passes := Put(after.passes, p, if reply == Ok then StatusNext(after, pc) else None))
  }

  // ---------- The environment ----------

  predicate ChangeEnabled(s: State, c: Change) {
    match c
    case UserCreate(_) => s.hub.None?
    case UserEdit(_) => s.hub.Some?
    case UserDelete => s.hub.Some?
    case Fleet(_, _) => true
    case ClaimProgress(p, _, _) => p in s.claims
    case ClaimGone(p) => p in s.claims
    case UserClaim(p) => p !in s.claims
  }

  function HubAfter(hub: Option<HubObject>, c: Change): Option<HubObject> {
    match c
    case UserCreate(spec) => Some(HubObject(spec, false, false, None))
    case UserEdit(spec) => if hub.Some? then Some(hub.value.(spec := spec)) else None
    case UserDelete => if hub.Some? && hub.value.finalizer then Some(hub.value.(marked := true)) else None
    case _ => hub
  }

  function ClaimsAfter(claims: map<Place, SpokeClaim>, c: Change): map<Place, SpokeClaim> {
    match c
    case ClaimProgress(p, phase, config) =>
      if p in claims then claims[p := claims[p].(phase := phase, config := config)] else claims
    case ClaimGone(p) => claims - {p}
    case UserClaim(p) => claims[p := SpokeClaim(false, "", None, false)]
    case _ => claims
  }

  function ChangeStep(s: State, c: Change): State {
    s.(hub := HubAfter(s.hub, c),
       claims := ClaimsAfter(s.claims, c),
       profiles := if c.Fleet? then c.profiles else s.profiles,
       engaged := if c.Fleet? then c.engaged else s.engaged)
  }

  // ---------- Steps and runs ----------

  predicate Enabled(s: State, e: Event) {
    match e
    case Worker(act) => ActEnabled(s, act)
    case Pass(p, act) => StatusEnabled(s, p, act)
    case Env(c) => ChangeEnabled(s, c)
  }

  function Step(s: State, e: Event): State
    requires Enabled(s, e)
  {
    match e
    case Worker(act) => ActStep(s, act)
    case Pass(p, act) => StatusStep(s, p, act)
    case Env(c) => ChangeStep(s, c)
  }

  /** A claim of ours exists, or a pass is in flight. */
  predicate InUse(s: State) { s.worker.Some? || exists p :: p in s.claims && s.claims[p].ours }

  predicate Steady(s: State, e: Event) { e.Env? ==> SteadyChange(s, e.change) }

  /** While the request is in use it keeps its spec, its region resolves to the
      same cluster, and that cluster stays engaged. */
  predicate SteadyChange(s: State, c: Change) {
    match c
    case UserCreate(spec) => s.worker.Some? && s.worker.value.AddFinalizer? ==> spec == s.worker.value.spec
    case UserEdit(spec) => s.hub.Some? && InUse(s) ==> spec == s.hub.value.spec
    case Fleet(profiles, engaged) =>
      s.hub.Some? && InUse(s) ==>
        var region := s.hub.value.spec.region;
        && Resolve(profiles, region) == Resolve(s.profiles, region)
        && (Resolve(profiles, region).Some? && Resolve(profiles, region).value in s.engaged ==>
              Resolve(profiles, region).value in engaged)
    case _ => true
  }

  predicate Possible(s: State, es: seq<Event>)
    decreases |es|
  {
    es == [] || (Enabled(s, es[0]) && Possible(Step(s, es[0]), es[1..]))
  }

  function Run(s: State, es: seq<Event>): State
    requires Possible(s, es)
    decreases |es|
  {
    if es == [] then s else Run(Step(s, es[0]), es[1..])
  }

  predicate SteadyRun(s: State, es: seq<Event>)
    decreases |es|
  {
    es == [] || (Enabled(s, es[0]) && Steady(s, es[0]) && SteadyRun(Step(s, es[0]), es[1..]))
  }
}
