/** Interrupted scaling leaves no gap: however many passes fail half-way, and
    however often the replica count changes, the VMs of a live request are
    always indices 0 .. n-1 for some n. */
module VmScaling {
  import opened Options
  import opened Text
  import opened VmDomain
  import opened VmProtocol
  import opened VmSafety

  /** The names of every VM k owns, wherever it is. */
  function Names(s: State, k: Key): set<string> {
    set p | p in s.vms && s.vms[p].owner == Some(k) :: p.name
  }

  /** VMName(request, i) for all i < n. */
  function FirstNames(request: string, n: nat): set<string> { set i | 0 <= i < n :: VMName(request, i) }

  /** No VM but k's own stands where one of k's names would go. */
  ghost predicate NoClash(s: State, k: Key) {
    forall p :: p in s.vms && p.namespace == k.namespace && IsVMName(k.name, p.name) ==> s.vms[p].owner == Some(k)
  }

  predicate PcGapless(s: State, k: Key, n: nat) {
    k in s.workers ==>
      match s.workers[k]
      case Planning(_, _, existing) => Elements(existing) == Names(s, k)
      case Applying(_, _, plan) => GaplessPlan(k.name, n, plan)
      case _ => true
  }

  /** The rest of a plan: n, n+1, ... to create, or n-1, n-2, ... to delete. */
  predicate GaplessPlan(request: string, n: nat, plan: Plan) {
    || (plan.delete == [] && n + |plan.create| <= MAX_INT && plan.create == NameRange(request, n, n + |plan.create|))
    || (plan.create == [] && |plan.delete| <= n && plan.delete == Downwards(request, n, |plan.delete|))
  }

  predicate GaplessAt(s: State, k: Key, n: nat) {
    n <= MAX_INT && Names(s, k) == FirstNames(k.name, n) && PcGapless(s, k, n)
  }

  ghost predicate Gapless(s: State, k: Key) {
    && Inv(s) && s.prompt && NoClash(s, k)
    && (k in s.hub && !s.hub[k].marked ==> exists n: nat :: GaplessAt(s, k, n))
  }

  /** Only the controller takes k's VMs away, and nobody else uses its names. */
  ghost predicate Undisturbed(s: State, e: Event, k: Key) {
    match e
    case Env(VmGone(p)) => p in s.vms ==> s.vms[p].owner != Some(k)
    case Env(UserVm(p)) => !(p.namespace == k.namespace && IsVMName(k.name, p.name))
    case _ => true
  }

  // ---------- One step ----------

  /** In a prompt world all of k's VMs are on its spoke, in its namespace. */
  lemma AllAtHome(s: State, k: Key)
    requires Inv(s) && s.prompt && k in s.hub
    ensures forall p :: p in s.vms && s.vms[p].owner == Some(k) ==> p == VmPlace(s.hub[k].spec, p.name)
    ensures GoodSpec(k, s.hub[k].spec) ==> OwnedNames(s, s.hub[k].spec.region, s.hub[k].spec.tenant, k) == Names(s, k)
  {
    var spec := s.hub[k].spec;
    forall p | p in s.vms && s.vms[p].owner == Some(k) ensures p == VmPlace(spec, p.name) && p.name in Names(s, k) {
      assert VmOk(s, p, s.vms[p]);
    }
    if GoodSpec(k, spec) {
      assert forall p :: p in s.vms && s.vms[p].owner == Some(k) ==> p in Listing(s, spec.region, spec.tenant, k);
    }
  }

  /** Steps that leave k's names alone, and its pass unless it is neither planning nor applying afterwards. */
  lemma QuietStep(s: State, t: State, k: Key)
    requires Gapless(s, k) && Inv(t) && t.prompt && NoClash(t, k)
    requires Names(t, k) == Names(s, k)
    requires k in t.hub && !t.hub[k].marked ==> k in s.hub && !s.hub[k].marked
    requires k in t.workers && (t.workers[k].Planning? || t.workers[k].Applying?) ==>
             k in s.workers && s.workers[k] == t.workers[k]
    ensures Gapless(t, k)
  {
    if k in t.hub && !t.hub[k].marked {
      var n: nat :| GaplessAt(s, k, n);
      assert GaplessAt(t, k, n);
    }
  }

  lemma NoClashKept(s: State, e: Event, k: Key)
    requires Inv(s) && NoClash(s, k) && Enabled(s, e) && Steady(s, e) && Undisturbed(s, e, k)
    ensures NoClash(Step(s, e), k)
  {
    StepKeeps(s, e);
    StepVms(s, e);
    NoClashKeptBy(s, Step(s, e), e, k);
  }

  lemma NoClashKeptBy(s: State, t: State, e: Event, k: Key)
    requires NoClash(s, k) && Inv(t) && Enabled(s, e) && t.vms == VmsOf(s, e) && Undisturbed(s, e, k)
    ensures NoClash(t, k)
  {
    forall p | p in t.vms && p.namespace == k.namespace && IsVMName(k.name, p.name) ensures t.vms[p].owner == Some(k) {
      if p !in s.vms {
        assert VmOk(t, p, t.vms[p]);
        assert t.vms[p].owner.Some?;
        if t.vms[p].owner != Some(k) { ForeignName(t, p, k); }
      }
    }
  }

  lemma CreateGapless(s: State, k: Key, reply: Reply)
    requires Gapless(s, k) && Enabled(s, Worker(k, Call(reply))) && reply != Failed
    requires s.workers[k].Applying? && s.workers[k].plan.create != []
    requires NoClash(Step(s, Worker(k, Call(reply))), k)
    ensures Gapless(Step(s, Worker(k, Call(reply))), k)
  {
    var t := Step(s, Worker(k, Call(reply)));
    StepKeeps(s, Worker(k, Call(reply)));
    StepVms(s, Worker(k, Call(reply)));
    assert PcOk(s, k, s.workers[k]);
    if k in t.hub && !t.hub[k].marked {
      var n: nat :| GaplessAt(s, k, n);
      CreateNext(s, k, n);
      AfterApply(s, k, reply);
      assert GaplessAt(t, k, n + 1);
    }
  }

  lemma CreateNext(s: State, k: Key, n: nat)
    requires NoClash(s, k) && GaplessAt(s, k, n)
    requires k in s.workers && s.workers[k].Applying? && s.workers[k].plan.create != []
             && s.workers[k].spec.tenant == k.namespace
    ensures var pc := s.workers[k]; var t := s.(vms := CreateVm(s.vms, VmPlace(pc.spec, pc.plan.create[0]), k));
            && n + 1 <= MAX_INT && Names(t, k) == FirstNames(k.name, n + 1)
            && GaplessPlan(k.name, n + 1, pc.plan.(create := pc.plan.create[1..]))
  {
    var spec, plan := s.workers[k].spec, s.workers[k].plan;
    var place := VmPlace(spec, plan.create[0]);
    assert plan.create[0] == VMName(k.name, n);
    FreshName(s, k, n, place);
    NamesGrow(s, s.(vms := CreateVm(s.vms, place, k)), k, place);
    assert FirstNames(k.name, n + 1) == FirstNames(k.name, n) + {VMName(k.name, n)};
    assert plan.create[1..] == NameRange(k.name, n + 1, n + |plan.create|);
  }

  /** The pass's next point after a create or delete call of syncVMs. */
  lemma AfterApply(s: State, k: Key, reply: Reply)
    requires Enabled(s, Worker(k, Call(reply))) && reply != Failed && s.workers[k].Applying?
             && s.workers[k].plan != Plan([], [])
    ensures var t := Step(s, Worker(k, Call(reply))); var pc := s.workers[k];
            var rest := if pc.plan.create != [] then pc.plan.(create := pc.plan.create[1..])
                        else pc.plan.(delete := pc.plan.delete[1..]);
            && t.hub == s.hub
            && if reply == Lost then k !in t.workers
               else k in t.workers && t.workers[k] == AfterPlan(pc.spec, pc.seen, rest)
  {
  }

  lemma NamesGrow(s: State, t: State, k: Key, place: Place)
    requires place !in s.vms && t.vms == s.vms[place := Vm(Some(k), false, false)]
    ensures Names(t, k) == Names(s, k) + {place.name}
  {
    forall name | name in Names(s, k) ensures name in Names(t, k) {
      var p :| p in s.vms && s.vms[p].owner == Some(k) && p.name == name;
      assert p in t.vms && t.vms[p].owner == Some(k);
    }
    assert place in t.vms;
  }

  /** The next index in line is free. */
  lemma FreshName(s: State, k: Key, n: nat, place: Place)
    requires NoClash(s, k) && Names(s, k) == FirstNames(k.name, n)
    requires place.namespace == k.namespace && place.name == VMName(k.name, n)
    ensures place !in s.vms
  {
    if place in s.vms {
      assert place.name in Names(s, k);
      var i :| 0 <= i < n && VMName(k.name, n) == VMName(k.name, i);
      VMNameInjective(k.name, n, k.name, i);
    }
  }

  lemma DeleteGapless(s: State, k: Key, reply: Reply)
    requires Gapless(s, k) && Enabled(s, Worker(k, Call(reply))) && reply != Failed
    requires s.workers[k].Applying? && s.workers[k].plan.create == [] && s.workers[k].plan.delete != []
    requires NoClash(Step(s, Worker(k, Call(reply))), k)
    ensures Gapless(Step(s, Worker(k, Call(reply))), k)
  {
    var t := Step(s, Worker(k, Call(reply)));
    StepKeeps(s, Worker(k, Call(reply)));
    StepVms(s, Worker(k, Call(reply)));
    assert PcOk(s, k, s.workers[k]);
    if k in t.hub && !t.hub[k].marked {
      var n: nat :| GaplessAt(s, k, n);
      AllAtHome(s, k);
      DeleteNext(s, k, n);
      AfterApply(s, k, reply);
      assert GaplessAt(t, k, n - 1);
    }
  }

  lemma DeleteNext(s: State, k: Key, n: nat)
    requires s.prompt && GaplessAt(s, k, n)
    requires k in s.workers && s.workers[k].Applying? && s.workers[k].plan.create == []
             && s.workers[k].plan.delete != []
    requires forall p :: p in s.vms && s.vms[p].owner == Some(k) ==> p == VmPlace(s.workers[k].spec, p.name)
    ensures var pc := s.workers[k]; var t := s.(vms := DeleteVm(s.prompt, s.vms, VmPlace(pc.spec, pc.plan.delete[0])));
            && n > 0 && Names(t, k) == FirstNames(k.name, n - 1)
            && GaplessPlan(k.name, n - 1, pc.plan.(delete := pc.plan.delete[1..]))
  {
    var spec, plan := s.workers[k].spec, s.workers[k].plan;
    var place := VmPlace(spec, plan.delete[0]);
    var t := s.(vms := DeleteVm(s.prompt, s.vms, place));
    assert plan.delete[0] == VMName(k.name, n - 1);
    assert t.vms == s.vms - {place};
    NamesShrink(s, t, k, place);
    LastName(k.name, n);
    assert plan.delete[1..] == Downwards(k.name, n - 1, |plan.delete| - 1);
  }

  lemma NamesShrink(s: State, t: State, k: Key, place: Place)
    requires t.vms == s.vms - {place}
    requires forall p :: p in s.vms && s.vms[p].owner == Some(k) ==>
             p.cluster == place.cluster && p.namespace == place.namespace
    ensures Names(t, k) == Names(s, k) - {place.name}
  {
    forall name | name in Names(s, k) && name != place.name ensures name in Names(t, k) {
      var p :| p in s.vms && s.vms[p].owner == Some(k) && p.name == name;
      assert p in t.vms && t.vms[p].owner == Some(k);
    }
    forall name | name in Names(t, k) ensures name in Names(s, k) && name != place.name {
      var p :| p in t.vms && t.vms[p].owner == Some(k) && p.name == name;
      assert p in s.vms && p != place;
    }
  }

  lemma LastName(request: string, n: nat)
    requires n > 0
    ensures FirstNames(request, n) - {VMName(request, n - 1)} == FirstNames(request, n - 1)
  {
    forall i | 0 <= i < n - 1 ensures VMName(request, i) != VMName(request, n - 1) {
      if VMName(request, i) == VMName(request, n - 1) { VMNameInjective(request, i, request, n - 1); }
    }
  }

  lemma PlannedGapless(s: State, k: Key, plan: Plan)
    requires Gapless(s, k) && Enabled(s, Worker(k, Planned(plan)))
    requires NoClash(Step(s, Worker(k, Planned(plan))), k)
    ensures Gapless(Step(s, Worker(k, Planned(plan))), k)
  {
    var t := Step(s, Worker(k, Planned(plan)));
    StepKeeps(s, Worker(k, Planned(plan)));
    assert PcOk(s, k, s.workers[k]);
    if k in t.hub && !t.hub[k].marked {
      var n: nat :| GaplessAt(s, k, n);
      var r := RequestOf(k, s.workers[k].spec);
      assert DesiredNames(r.(replicas := n)) == FirstNames(k.name, n);
      PlanOfContiguous(r, n, plan);
      assert GaplessPlan(k.name, n, plan) by {
        if r.replicas >= n { assert plan.create == NameRange(k.name, n, n + |plan.create|); }
        else { assert plan.delete == Downwards(k.name, n, |plan.delete|); }
      }
      assert Names(t, k) == Names(s, k);
      assert GaplessAt(t, k, n);
    }
  }

  lemma ListedGapless(s: State, k: Key, names: seq<string>)
    requires Gapless(s, k) && Enabled(s, Worker(k, Listed(names)))
    requires NoClash(Step(s, Worker(k, Listed(names))), k)
    ensures Gapless(Step(s, Worker(k, Listed(names))), k)
  {
    var t := Step(s, Worker(k, Listed(names)));
    StepKeeps(s, Worker(k, Listed(names)));
    assert PcOk(s, k, s.workers[k]);
    AllAtHome(s, k);
    if k in t.hub && !t.hub[k].marked {
      var n: nat :| GaplessAt(s, k, n);
      assert Names(t, k) == Names(s, k);
      assert GaplessAt(t, k, n);
    }
  }

  /** A cleanup step is no concern of an unmarked request; any other call of k's pass keeps its VMs. */
  lemma OtherCallGapless(s: State, k: Key, reply: Reply)
    requires Gapless(s, k) && Enabled(s, Worker(k, Call(reply))) && NoClash(Step(s, Worker(k, Call(reply))), k)
    requires s.workers[k].Applying? ==> reply == Failed || s.workers[k].plan == Plan([], [])
    ensures Gapless(Step(s, Worker(k, Call(reply))), k)
  {
    var t := Step(s, Worker(k, Call(reply)));
    StepKeeps(s, Worker(k, Call(reply)));
    StepVms(s, Worker(k, Call(reply)));
    assert PcOk(s, k, s.workers[k]);
    CallNeverPlans(s, k, reply);
    if k in t.hub && !t.hub[k].marked {
      assert Names(t, k) == Names(s, k);
      QuietStep(s, t, k);
    }
  }

  /** Only a listing leads to planning, only a plan or the rest of one to applying; no call unmarks. */
  lemma CallNeverPlans(s: State, k: Key, reply: Reply)
    requires Enabled(s, Worker(k, Call(reply)))
    requires s.workers[k].Applying? ==> reply == Failed || s.workers[k].plan == Plan([], [])
    ensures var t := Step(s, Worker(k, Call(reply)));
            && (k in t.workers ==> !t.workers[k].Planning? && !t.workers[k].Applying?)
            && (k in t.hub ==> k in s.hub && (t.hub[k].marked <==> s.hub[k].marked))
  {
    ActFrame(s, k, Call(reply));
    var pc := s.workers[k];
    if reply == Ok && Accepts(s, k, pc) {
      NextNeverPlans(Effect(s, k, pc), k, pc);
    }
  }

  lemma NextNeverPlans(s: State, k: Key, pc: Pc)
    requires pc.Applying? ==> pc.plan == Plan([], [])
    ensures var next := Next(s, k, pc); next.Some? ==> !next.value.Planning? && !next.value.Applying?
  {
  }

  /** Passes over other requests, and the environment. */
  lemma ForeignGapless(s: State, e: Event, k: Key)
    requires Gapless(s, k) && Enabled(s, e) && Steady(s, e) && Undisturbed(s, e, k) && NoClash(Step(s, e), k)
    requires !Moves(e, k) && !(e.Env? && e.change.UserCreate? && e.change.key == k)
    ensures Gapless(Step(s, e), k)
  {
    var t := Step(s, e);
    StepKeeps(s, e);
    StepVms(s, e);
    StepWorkers(s, e, k);
    NeverUnmarks(s, e, k);
    OwnedKept(s, t, e, k);
    QuietStep(s, t, k);
  }

  lemma OwnedKept(s: State, t: State, e: Event, k: Key)
    requires Inv(s) && s.prompt && Enabled(s, e) && Undisturbed(s, e, k) && !Moves(e, k) && t.vms == VmsOf(s, e)
    ensures Names(t, k) == Names(s, k)
  {
    if e.Worker? && e.act.Call? {
      assert PcOk(s, e.key, s.workers[e.key]);
      ChangesOwnNames(s, e.key);
    }
    forall p | p in s.vms && s.vms[p].owner == Some(k) ensures p in t.vms && t.vms[p].owner == Some(k) {
      assert VmOk(s, p, s.vms[p]);
      if e.Worker? && e.act.Call? { ForeignName(s, p, e.key); }
    }
    assert forall p :: p in t.vms && t.vms[p].owner == Some(k) ==> p in s.vms && s.vms[p].owner == Some(k);
    SameNames(s, t, k);
  }

  lemma SameNames(s: State, t: State, k: Key)
    requires forall p :: p in s.vms && s.vms[p].owner == Some(k) ==> p in t.vms && t.vms[p].owner == Some(k)
    requires forall p :: p in t.vms && t.vms[p].owner == Some(k) ==> p in s.vms && s.vms[p].owner == Some(k)
    ensures Names(t, k) == Names(s, k)
  {
    assert forall p :: (p in s.vms && s.vms[p].owner == Some(k)) <==> (p in t.vms && t.vms[p].owner == Some(k));
  }

  /** A request created anew starts with no VM at all. */
  lemma CreatedGapless(s: State, k: Key, spec: Spec)
    requires Gapless(s, k) && Enabled(s, Env(UserCreate(k, spec))) && Steady(s, Env(UserCreate(k, spec)))
    requires NoClash(Step(s, Env(UserCreate(k, spec))), k)
    ensures Gapless(Step(s, Env(UserCreate(k, spec))), k)
  {
    var t := Step(s, Env(UserCreate(k, spec)));
    StepKeeps(s, Env(UserCreate(k, spec)));
    forall p | p in s.vms ensures s.vms[p].owner != Some(k) { assert VmOk(s, p, s.vms[p]); }
    assert Names(t, k) == {} == FirstNames(k.name, 0);
    if k in s.workers { assert PcOk(s, k, s.workers[k]); }
    assert GaplessAt(t, k, 0);
  }

  lemma GetNeverPlans(obj: HubObject)
    ensures var pc := AfterGet(obj); pc.Some? ==> !pc.value.Planning? && !pc.value.Applying?
  {
  }

  lemma EdgeGapless(s: State, k: Key, act: Act)
    requires Gapless(s, k) && ActEnabled(s, k, act) && (act == Begin || act == Crash)
    requires NoClash(ActStep(s, k, act), k)
    ensures Gapless(ActStep(s, k, act), k)
  {
    var t := ActStep(s, k, act);
    ActKeeps(s, k, act);
    ActFrame(s, k, act);
    if k in s.hub { GetNeverPlans(s.hub[k]); }
    assert Names(t, k) == Names(s, k);
    QuietStep(s, t, k);
  }

  lemma StepGapless(s: State, e: Event, k: Key)
    requires Gapless(s, k) && Enabled(s, e) && Steady(s, e) && Undisturbed(s, e, k)
    ensures Gapless(Step(s, e), k)
  {
    NoClashKept(s, e, k);
    if e.Env? && e.change.UserCreate? && e.change.key == k { CreatedGapless(s, k, e.change.spec); }
    else if !Moves(e, k) { ForeignGapless(s, e, k); }
    else {
      match e.act {
        case Call(reply) =>
          if s.workers[k].Applying? && reply != Failed && s.workers[k].plan.create != [] { CreateGapless(s, k, reply); }
          else if s.workers[k].Applying? && reply != Failed && s.workers[k].plan.delete != [] {
            DeleteGapless(s, k, reply);
          }
          else { OtherCallGapless(s, k, reply); }
        case Listed(names) => ListedGapless(s, k, names);
        case Planned(plan) => PlannedGapless(s, k, plan);
        case _ => EdgeGapless(s, k, e.act);
      }
    }
  }

  // ---------- Whole runs ----------

  ghost predicate UndisturbedRun(s: State, es: seq<Event>, k: Key)
    decreases |es|
  {
    es == [] || (Enabled(s, es[0]) && Steady(s, es[0]) && Undisturbed(s, es[0], k)
        && UndisturbedRun(Step(s, es[0]), es[1..], k))
  }

  lemma {:induction false} RunGapless(s: State, es: seq<Event>, k: Key)
    requires Gapless(s, k) && UndisturbedRun(s, es, k)
    ensures Possible(s, es) && Gapless(Run(s, es), k)
    decreases |es|
  {
    if es != [] {
      StepGapless(s, es[0], k);
      RunGapless(Step(s, es[0]), es[1..], k);
    }
  }

  /** k owns a VM of this name somewhere. */
  predicate Owns(s: State, k: Key, name: string) {
    exists p :: p in s.vms && s.vms[p].owner == Some(k) && p.name == name
  }

  /** From the empty world, through any failures, crashes and replica changes:
      while the request lives, its VMs are exactly indices 0 .. n-1 for some n. */
  lemma NoGaps(start: State, es: seq<Event>, k: Key) returns (n: nat)
    requires Initial(start) && start.prompt && UndisturbedRun(start, es, k)
    ensures Possible(start, es)
    ensures var s := Run(start, es);
            k in s.hub && !s.hub[k].marked ==>
              && (forall p :: p in s.vms && s.vms[p].owner == Some(k) ==>
                    exists i :: 0 <= i < n && p.name == VMName(k.name, i))
              && (forall i :: 0 <= i < n ==> Owns(s, k, VMName(k.name, i)))
  {
    InitialOk(start);
    RunGapless(start, es, k);
    var s := Run(start, es);
    n := 0;
    if k in s.hub && !s.hub[k].marked {
      n :| GaplessAt(s, k, n);
      NamesFilled(s, k, n);
    }
  }

  lemma NamesFilled(s: State, k: Key, n: nat)
    requires Names(s, k) == FirstNames(k.name, n)
    ensures forall p :: p in s.vms && s.vms[p].owner == Some(k) ==>
              exists i :: 0 <= i < n && p.name == VMName(k.name, i)
    ensures forall i :: 0 <= i < n ==> Owns(s, k, VMName(k.name, i))
  {
    forall p | p in s.vms && s.vms[p].owner == Some(k) ensures exists i :: 0 <= i < n && p.name == VMName(k.name, i) {
      assert p.name in Names(s, k);
    }
    forall i | 0 <= i < n ensures Owns(s, k, VMName(k.name, i)) {
      assert VMName(k.name, i) in FirstNames(k.name, n);
    }
  }
}
