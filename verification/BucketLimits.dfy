/** Why BucketSafety asks for a fixed placement while a pass is in flight, not
    only while a claim exists: the spec's region can be edited, and a pass that
    has already read the request creates its claim on the old cluster. */
module BucketLimits {
  import opened Options
  import opened BucketDomain
  import opened BucketProtocol
  import opened BucketSafety

  const US := Spec(true, "us", "acme")
  const EU := Spec(true, "eu", "acme")
  const REGIONS: map<string, string> := map["a" := "us", "b" := "eu"]
  const STRAY := Place("a", "acme")

  function Obj(spec: Spec, marked: bool, finalizer: bool): Option<HubObject> {
    Some(HubObject(spec, marked, finalizer, None))
  }

  /** A fleet of two clusters, one a region, and a request as given. */
  function World(s: State, hub: Option<HubObject>, worker: Option<Pc>): State {
    s.(profiles := REGIONS, engaged := {"a", "b"}, hub := hub, worker := worker)
  }

  /** The same with the claim that went astray. */
  function Stray(s: State, hub: Option<HubObject>, worker: Option<Pc>): State {
    World(s, hub, worker).(claims := map[STRAY := SpokeClaim(true, "", None, false)])
  }

  /** A request for us whose pass is about to create the claim (state 7), then
      edited to eu, deleted and cleaned up there: the run, state by state. */
  function At(s: State, i: nat): State {
    match i
    case 0 => s
    case 1 => World(s, None, None)
    case 2 => World(s, Obj(US, false, false), None)
    case 3 => World(s, Obj(US, false, false), Some(AddFinalizer(US)))
    case 4 => World(s, Obj(US, false, true), Some(ListProfiles(US, None)))
    case 5 => World(s, Obj(US, false, true), Some(GetCluster(US, None, "a")))
    case 6 => World(s, Obj(US, false, true), Some(GetClaim(US, None, "a")))
    case 7 => World(s, Obj(US, false, true), Some(CreateClaim(US, None, "a")))
    case 8 => World(s, Obj(EU, false, true), Some(CreateClaim(US, None, "a")))
    case 9 => Stray(s, Obj(EU, false, true), None)
    case 10 => Stray(s, Obj(EU, true, true), None)
    case 11 => Stray(s, Obj(EU, true, true), Some(FinProfiles(EU)))
    case 12 => Stray(s, Obj(EU, true, true), Some(FinCluster(EU, "b")))
    case 13 => Stray(s, Obj(EU, true, true), Some(DeleteClaim(EU, "b")))
    case 14 => Stray(s, Obj(EU, true, true), Some(CheckGone(EU, "b")))
    case 15 => Stray(s, Obj(EU, true, true), Some(Release))
    case _ => Stray(s, None, None)
  }

  function EventAt(i: nat): Event {
    match i
    case 0 => Env(Fleet(REGIONS, {"a", "b"}))
    case 1 => Env(UserCreate(US))
    case 2 => Worker(Begin)
    case 7 => Env(UserEdit(EU))
    case 8 => Worker(Call(Lost))
    case 9 => Env(UserDelete)
    case 10 => Worker(Begin)
    case _ => Worker(Call(Ok))
  }

  lemma RegionsResolve()
    ensures Resolve(REGIONS, "us") == Some("a") && Resolve(REGIONS, "eu") == Some("b")
  {
    assert Offering(REGIONS, "us") == {"a"} && Offering(REGIONS, "eu") == {"b"};
  }

  predicate Leads(s: State, i: nat) { Enabled(At(s, i), EventAt(i)) && Step(At(s, i), EventAt(i)) == At(s, i + 1) }

  lemma RequestIsPlaced(s: State)
    requires Initial(s)
    ensures forall i :: 0 <= i < 4 ==> Leads(s, i) && Steady(At(s, i), EventAt(i))
  {
  }

  lemma PassFindsHome(s: State)
    requires Initial(s)
    ensures forall i :: 4 <= i < 7 ==> Leads(s, i) && Steady(At(s, i), EventAt(i))
  {
    RegionsResolve();
  }

  lemma ClaimGoesAstray(s: State)
    requires Initial(s)
    ensures forall i :: 7 <= i < 11 ==> Leads(s, i)
  {
  }

  lemma CleanupLooksElsewhere(s: State)
    requires Initial(s)
    ensures Leads(s, 11)
  {
    RegionsResolve();
  }

  lemma CleanupFindsCluster(s: State)
    requires Initial(s)
    ensures Leads(s, 12)
  {
  }

  lemma CleanupAsks(s: State)
    requires Initial(s)
    ensures Leads(s, 13)
  {
  }

  lemma CleanupFindsNothing(s: State)
    requires Initial(s)
    ensures Leads(s, 14)
  {
  }

  lemma RequestGoes(s: State)
    requires Initial(s)
    ensures Leads(s, 15)
  {
  }

  lemma {:induction false} RunFrom(s: State, i: nat, upto: nat, es: seq<Event>)
    requires Initial(s) && i <= upto <= 16
    requires |es| == upto - i && forall j :: 0 <= j < |es| ==> es[j] == EventAt(i + j)
    ensures Possible(At(s, i), es) && Run(At(s, i), es) == At(s, upto) && (upto <= 7 ==> SteadyRun(At(s, i), es))
    decreases upto - i
  {
    if i < upto {
      RequestIsPlaced(s);
      PassFindsHome(s);
      ClaimGoesAstray(s);
      CleanupLooksElsewhere(s);
      CleanupFindsCluster(s);
      CleanupAsks(s);
      CleanupFindsNothing(s);
      RequestGoes(s);
      assert Leads(s, i);
      RunFrom(s, i + 1, upto, es[1..]);
    }
  }

  /** From every empty world: a steady run up to a pass about to create the
      first claim, then, while no claim exists yet, one edit of the region. The
      request leaves the hub and its claim stays behind for good. */
  lemma EditDuringPassOrphans(start: State) returns (before: seq<Event>, after: seq<Event>)
    requires Initial(start)
    ensures SteadyRun(start, before) && Possible(start, before) && NoClaim(Run(start, before))
    ensures Possible(Run(start, before), after)
    ensures forall i :: 0 <= i < |after| && after[i].Env? ==> after[i] in {Env(UserEdit(EU)), Env(UserDelete)}
    ensures var s := Run(Run(start, before), after);
            s.hub == None && STRAY in s.claims && s.claims[STRAY].ours && !s.claims[STRAY].deleting
  {
    before := seq(7, i requires 0 <= i => EventAt(i));
    after := seq(9, i requires 0 <= i => EventAt(7 + i));
    RunFrom(start, 0, 7, before);
    RunFrom(start, 7, 16, after);
  }
}
