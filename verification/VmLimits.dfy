/** How far the promise of VmSafety reaches. Cleanup only asks for the VMs to
    go: a request outlives its VMs in every steady run exactly where deletion is
    prompt. And a cluster that is disengaged while in use leaves a VM for good. */
module VmLimits {
  import opened Options
  import opened VmDomain
  import opened VmProtocol
  import opened VmSafety

  const REQUEST := Key("acme", "demo")
  const SPEC := Spec(true, "eu", "acme", 1, "init")
  const SOURCE := Key("acme", "init")

  function Name(): string { VMName("demo", 0) }

  function VmAt(): Place { VmPlace(SPEC, Name()) }

  // ---------- One request's life ----------

  function Object(marked: bool, finalizer: bool): map<Key, HubObject> {
    map[REQUEST := HubObject(SPEC, marked, finalizer, None)]
  }

  function Equipped(s: State): State { s.(hubSecrets := s.hubSecrets[SOURCE := map[]], engaged := {"eu"}) }

  function WithFinalizer(s: State): State { Equipped(s).(hub := Object(false, true)) }

  function Copied(s: State): State {
    WithFinalizer(s).(secrets := map[SecretPlace(SPEC) := Secret(Some(REQUEST), map[])])
  }

  function Running(s: State): State { Copied(s).(vms := map[VmAt() := Vm(Some(REQUEST), false, false)]) }

  function Doomed(s: State): State { Running(s).(hub := Object(true, true)) }

  function Asked(s: State): State { Doomed(s).(vms := map[VmAt() := Vm(Some(REQUEST), false, true)]) }

  function Cleaned(s: State): State { Asked(s).(secrets := map[]) }

  function With(s: State, pc: Pc): State { s.(workers := map[REQUEST := pc]) }

  /** From an empty world to a request with one running VM, marked for deletion, and its slow cleanup. */
  function At(s: State, i: nat): State {
    match i
    case 0 => s
    case 1 => s.(hubSecrets := s.hubSecrets[SOURCE := map[]])
    case 2 => Equipped(s)
    case 3 => Equipped(s).(hub := Object(false, false))
    case 4 => With(Equipped(s).(hub := Object(false, false)), AddFinalizer(SPEC))
    case 5 => With(WithFinalizer(s), GetCluster(SPEC, None))
    case 6 => With(WithFinalizer(s), ReadHubSecret(SPEC, None))
    case 7 => With(WithFinalizer(s), ReadSpokeSecret(SPEC, None, map[]))
    case 8 => With(WithFinalizer(s), CreateSecret(SPEC, None, map[]))
    case 9 => With(Copied(s), ListVMs(SPEC, None))
    case 10 => With(Copied(s), Planning(SPEC, None, []))
    case 11 => With(Copied(s), Applying(SPEC, None, Plan([Name()], [])))
    case 12 => With(Running(s), ListForStatus(SPEC, None))
    case 13 => Running(s)
    case 14 => Doomed(s)
    case 15 => With(Doomed(s), FinCluster(SPEC))
    case 16 => With(Doomed(s), FinList(SPEC))
    case 17 => With(Doomed(s), FinVMs(SPEC, [Name()]))
    case 18 => With(Asked(s), FinSecret(SPEC))
    case 19 => With(Cleaned(s), Release)
    case _ => Cleaned(s).(hub := map[])
  }

  function EventAt(i: nat): Event {
    match i
    case 0 => Env(HubSecretChange(SOURCE, Some(map[])))
    case 1 => Env(Engage({"eu"}))
    case 2 => Env(UserCreate(REQUEST, SPEC))
    case 3 => Worker(REQUEST, Begin)
    case 9 => Worker(REQUEST, Listed([]))
    case 10 => Worker(REQUEST, Planned(Plan([Name()], [])))
    case 12 => Worker(REQUEST, Crash)
    case 13 => Env(UserDelete(REQUEST))
    case 14 => Worker(REQUEST, Begin)
    case 16 => Worker(REQUEST, Listed([Name()]))
    case _ => Worker(REQUEST, Call(Ok))
  }

  /** The event leads from s to t, steadily. */
  predicate Leads(s: State, e: Event, t: State) { Enabled(s, e) && Steady(s, e) && Step(s, e) == t }

  lemma Prepares(s: State)
    requires Initial(s)
    ensures forall i :: 0 <= i < 4 ==> Leads(At(s, i), EventAt(i), At(s, i + 1))
  {
  }

  lemma TakesHold(s: State)
    requires s.workers == map[] && s.hub == Object(false, false)
    ensures Leads(With(s, AddFinalizer(SPEC)), Worker(REQUEST, Call(Ok)),
            With(s.(hub := Object(false, true)), GetCluster(SPEC, None)))
  {
  }

  lemma FindsHome(s: State)
    requires s.workers == map[] && "eu" in s.engaged
    ensures Leads(With(s, GetCluster(SPEC, None)), Worker(REQUEST, Call(Ok)), With(s, ReadHubSecret(SPEC, None)))
  {
  }

  lemma ReadsSource(s: State)
    requires s.workers == map[] && SOURCE in s.hubSecrets && s.hubSecrets[SOURCE] == map[]
    ensures Leads(With(s, ReadHubSecret(SPEC, None)), Worker(REQUEST, Call(Ok)),
            With(s, ReadSpokeSecret(SPEC, None, map[])))
  {
  }

  lemma MissesCopy(s: State)
    requires s.workers == map[] && s.secrets == map[]
    ensures Leads(With(s, ReadSpokeSecret(SPEC, None, map[])), Worker(REQUEST, Call(Ok)),
            With(s, CreateSecret(SPEC, None, map[])))
  {
  }

  lemma Copies(s: State)
    requires s.workers == map[] && s.secrets == map[]
    ensures Leads(With(s, CreateSecret(SPEC, None, map[])), Worker(REQUEST, Call(Ok)),
                  With(s.(secrets := map[SecretPlace(SPEC) := Secret(Some(REQUEST), map[])]), ListVMs(SPEC, None)))
  {
  }

  lemma ListsNothing(s: State)
    requires Initial(s)
    ensures Leads(At(s, 9), EventAt(9), At(s, 10))
  {
    assert Listing(At(s, 9), "eu", "acme", REQUEST) == {};
    assert OwnedNames(At(s, 9), "eu", "acme", REQUEST) == Elements([]);
  }

  lemma OneIsMissing()
    ensures IsPlan(RequestOf(REQUEST, SPEC), {}, Plan([Name()], []))
  {
    var names := NameRange("demo", 0, 1);
    assert names == [Name()] && names[..0] == [];
    assert Missing(names[..0], {}) == [] && Missing(names, {}) == [Name()];
    assert Elements([]) == {};
  }

  lemma PlansOne(s: State)
    requires Initial(s)
    ensures Leads(At(s, 10), EventAt(10), At(s, 11))
  {
    OneIsMissing();
    assert Elements([]) == {};
  }

  lemma Creates(s: State)
    requires s.workers == map[] && s.vms == map[]
    ensures Leads(With(s, Applying(SPEC, None, Plan([Name()], []))), Worker(REQUEST, Call(Ok)),
                  With(s.(vms := map[VmAt() := Vm(Some(REQUEST), false, false)]), ListForStatus(SPEC, None)))
  {
  }

  lemma Crashes(s: State, pc: Pc)
    requires s.workers == map[]
    ensures Leads(With(s, pc), Worker(REQUEST, Crash), s)
  {
    assert With(s, pc).workers - {REQUEST} == map[];
  }

  lemma IsDeleted(s: State)
    requires s.hub == Object(false, true)
    ensures Leads(s, Env(UserDelete(REQUEST)), s.(hub := Object(true, true)))
  {
  }

  lemma Works(s: State, i: nat)
    requires Initial(s) && 4 <= i < 14
    ensures Leads(At(s, i), EventAt(i), At(s, i + 1))
  {
    match i
    case 4 => TakesHold(At(s, 3));
    case 5 => FindsHome(WithFinalizer(s));
    case 6 => ReadsSource(WithFinalizer(s));
    case 7 => MissesCopy(WithFinalizer(s));
    case 8 => Copies(WithFinalizer(s));
    case 9 => ListsNothing(s);
    case 10 => PlansOne(s);
    case 11 => Creates(Copied(s));
    case 12 => Crashes(Running(s), ListForStatus(SPEC, None));
    case 13 => IsDeleted(Running(s));
  }

  // Cleanup, from any state that holds a doomed request.

  lemma Begins(s: State)
    requires s.hub == Object(true, true) && s.workers == map[]
    ensures Leads(s, Worker(REQUEST, Begin), With(s, FinCluster(SPEC)))
  {
  }

  lemma FindsCluster(s: State)
    requires s.workers == map[]
    ensures Leads(With(s, FinCluster(SPEC)), Worker(REQUEST, Call(Ok)),
            With(s, if "eu" in s.engaged then FinList(SPEC) else Release))
  {
  }

  lemma Lists(s: State)
    requires s.workers == map[] && s.vms == map[VmAt() := Vm(Some(REQUEST), false, false)]
    ensures Leads(With(s, FinList(SPEC)), Worker(REQUEST, Listed([Name()])), With(s, FinVMs(SPEC, [Name()])))
  {
    var t := With(s, FinList(SPEC));
    assert VmAt() in Listing(t, "eu", "acme", REQUEST);
    assert OwnedNames(t, "eu", "acme", REQUEST) == Elements([Name()]);
  }

  lemma AsksVmToGo(s: State)
    requires s.workers == map[] && !s.prompt && s.vms == map[VmAt() := Vm(Some(REQUEST), false, false)]
    ensures Leads(With(s, FinVMs(SPEC, [Name()])), Worker(REQUEST, Call(Ok)),
                  With(s.(vms := map[VmAt() := Vm(Some(REQUEST), false, true)]), FinSecret(SPEC)))
  {
    assert [Name()][1..] == [];
    assert DeleteVm(false, s.vms, VmAt()) == map[VmAt() := Vm(Some(REQUEST), false, true)];
  }

  lemma DeletesSecret(s: State)
    requires s.workers == map[] && s.secrets == map[SecretPlace(SPEC) := Secret(Some(REQUEST), map[])]
    ensures Leads(With(s, FinSecret(SPEC)), Worker(REQUEST, Call(Ok)), With(s.(secrets := map[]), Release))
  {
    assert s.secrets - {SecretPlace(SPEC)} == map[];
  }

  lemma Releases(s: State)
    requires s.workers == map[] && s.hub == Object(true, true)
    ensures Leads(With(s, Release), Worker(REQUEST, Call(Ok)), s.(hub := map[]))
  {
    assert WithoutFinalizer(s.hub, REQUEST) == map[];
  }

  lemma CleansUp(s: State, i: nat)
    requires Initial(s) && 14 <= i < 20 && (i == 17 ==> !s.prompt)
    ensures Leads(At(s, i), EventAt(i), At(s, i + 1))
  {
    match i
    case 14 => Begins(Doomed(s));
    case 15 => FindsCluster(Doomed(s));
    case 16 => Lists(Doomed(s));
    case 17 => AsksVmToGo(Doomed(s));
    case 18 => DeletesSecret(Asked(s));
    case 19 => Releases(Cleaned(s));
  }

  lemma AllLead(s: State, i: nat)
    requires Initial(s) && i < 20 && (i == 17 ==> !s.prompt)
    ensures Leads(At(s, i), EventAt(i), At(s, i + 1))
  {
    if i < 4 { Prepares(s); }
    else if i < 14 { Works(s, i); }
    else { CleansUp(s, i); }
  }

  /** Events i .. upto-1, as a run. */
  lemma {:induction false} RunFrom(s: State, i: nat, upto: nat, es: seq<Event>)
    requires Initial(s) && i <= upto <= 20 && (upto > 17 ==> !s.prompt)
    requires |es| == upto - i && forall j :: 0 <= j < |es| ==> es[j] == EventAt(i + j)
    ensures SteadyRun(At(s, i), es) && Possible(At(s, i), es) && Run(At(s, i), es) == At(s, upto)
    decreases upto - i
  {
    if i < upto {
      AllLead(s, i);
      RunFrom(s, i + 1, upto, es[1..]);
    }
  }

  // ---------- Prompt deletion ----------

  predicate Orphaned(s: State, k: Key) { k !in s.hub && exists p :: p in s.vms && s.vms[p].owner == Some(k) }

  /** The steady run ends with an orphan of k. */
  predicate Orphans(start: State, es: seq<Event>, k: Key) {
    SteadyRun(start, es) && Possible(start, es) && Orphaned(Run(start, es), k)
  }

  /** The documentation has a delete wait until the spoke confirms that the
      workload is gone. For VMs that is so exactly where deletion is prompt. */
  lemma PromptnessDecides(start: State)
    requires Initial(start)
    ensures start.prompt <==> forall es: seq<Event>, k: Key :: !Orphans(start, es, k)
  {
    if start.prompt {
      forall es: seq<Event>, k: Key ensures !Orphans(start, es, k) {
        if SteadyRun(start, es) {
          NoOrphans(start, es, k);
          PromptnessLasts(start, es);
        }
      }
    } else {
      var es := SlowDeletionOutlives(start);
      assert Orphans(start, es, REQUEST);
    }
  }

  lemma {:induction false} PromptnessLasts(s: State, es: seq<Event>)
    requires Possible(s, es)
    ensures Run(s, es).prompt == s.prompt
    decreases |es|
  {
    if es != [] {
      StepVms(s, es[0]);
      PromptnessLasts(Step(s, es[0]), es[1..]);
    }
  }

  /** Where deletion takes its time: a steady run after which the request is gone and its VM is not. */
  lemma SlowDeletionOutlives(start: State) returns (es: seq<Event>)
    requires Initial(start) && !start.prompt
    ensures SteadyRun(start, es) && Possible(start, es) && Orphaned(Run(start, es), REQUEST)
  {
    es := seq(20, i requires 0 <= i => EventAt(i));
    RunFrom(start, 0, 20, es);
    assert VmAt() in Run(start, es).vms;
  }

  // ---------- Disengagement ----------

  lemma {:induction false} Joined(s: State, es: seq<Event>, t: State, fs: seq<Event>)
    requires Possible(s, es) && Run(s, es) == t && Possible(t, fs)
    ensures Possible(s, es + fs) && Run(s, es + fs) == Run(t, fs)
    decreases |es|
  {
    if es == [] {
      assert es + fs == fs;
    } else {
      assert (es + fs)[1..] == es[1..] + fs;
      Joined(Step(s, es[0]), es[1..], t, fs);
    }
  }

  /** A steady run, then the cluster of a running VM is disengaged, then one
      cleanup pass: the request is gone and the VM runs on, asked by nobody to
      go, prompt deletion or not. */
  lemma DisengagementOrphans(start: State) returns (before: seq<Event>, after: seq<Event>)
    requires Initial(start)
    ensures SteadyRun(start, before) && |after| == 4 && after[0] == Env(Engage({}))
    ensures forall i :: 1 <= i < 4 ==> after[i].Worker?
    ensures Possible(start, before + after)
    ensures var s := Run(start, before + after);
            Orphaned(s, REQUEST) && forall p :: p in s.vms ==> !s.vms[p].deleting
  {
    before := seq(14, i requires 0 <= i => EventAt(i));
    RunFrom(start, 0, 14, before);
    after := CleansUpNothing(Doomed(start));
    Joined(start, before, Doomed(start), after);
    assert VmAt() in Run(start, before + after).vms;
  }

  lemma CleansUpNothing(s: State) returns (es: seq<Event>)
    requires s.hub == Object(true, true) && s.workers == map[]
    ensures |es| == 4 && es[0] == Env(Engage({})) && forall i :: 1 <= i < 4 ==> es[i].Worker?
    ensures Possible(s, es) && Run(s, es) == s.(engaged := {}, hub := map[])
  {
    var lost, call := s.(engaged := {}), Worker(REQUEST, Call(Ok));
    Begins(lost);
    FindsCluster(lost);
    Releases(lost);
    es := [Env(Engage({})), Worker(REQUEST, Begin), call, call];
    Runs4(s, es, lost, With(lost, FinCluster(SPEC)), With(lost, Release), lost.(hub := map[]));
  }

  lemma Runs4(s: State, es: seq<Event>, a: State, b: State, c: State, d: State)
    requires |es| == 4 && Enabled(s, es[0]) && Step(s, es[0]) == a
    requires Leads(a, es[1], b) && Leads(b, es[2], c) && Leads(c, es[3], d)
    ensures Possible(s, es) && Run(s, es) == d
  {
    assert es[1..][1..] == es[2..] && es[2..][1..] == es[3..] && es[3..][1..] == [];
    assert Possible(d, []) && Run(d, []) == d;
    assert Possible(c, es[3..]) && Run(c, es[3..]) == d;
    assert Possible(b, es[2..]) && Run(b, es[2..]) == d;
    assert Possible(a, es[1..]) && Run(a, es[1..]) == d;
  }
}
