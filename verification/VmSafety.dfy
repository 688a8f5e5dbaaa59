/** What every run of the VM protocol keeps: nothing is orphaned, requests do
    not touch each other's VMs, and interrupted scaling leaves no gap. */
module VmSafety {
  import opened Options
  import opened VmDomain
  import opened VmProtocol

  // ---------- The invariant ----------

  ghost predicate IsVMName(request: string, name: string) { exists i: nat :: name == VMName(request, i) }

  predicate GoodSpec(k: Key, spec: Spec) {
    WellLabelled(k, spec) && spec.valid && spec.tenant == k.namespace
  }

  /** k is on the hub, holds the finalizer and is placed as spec says. */
  predicate Held(s: State, k: Key, spec: Spec) {
    k in s.hub && s.hub[k].finalizer && GoodSpec(k, spec) && SamePlace(s.hub[k].spec, spec)
  }

  predicate HeldAt(s: State, k: Key, cluster: string) {
    k in s.hub && Held(s, k, s.hub[k].spec) && s.hub[k].spec.region == cluster && cluster in s.engaged
  }

  predicate HubOk(k: Key, obj: HubObject) {
    WellLabelled(k, obj.spec) && (obj.marked ==> obj.finalizer)
  }

  ghost predicate VmOk(s: State, p: Place, vm: Vm) {
    vm.owner.Some? ==>
      var k := vm.owner.value;
      && p.namespace == k.namespace && IsVMName(k.name, p.name)
      && (!vm.deleting ==> HeldAt(s, k, p.cluster))
      && (s.prompt ==> !vm.deleting)
  }

  predicate SecretOk(s: State, p: Place, secret: Secret) {
    secret.owner.Some? ==>
      var k := secret.owner.value;
      HeldAt(s, k, p.cluster) && p == SecretPlace(s.hub[k].spec)
  }

  predicate NoLiveVm(s: State, k: Key) {
    forall p :: p in s.vms && s.vms[p].owner == Some(k) ==> s.vms[p].deleting
  }

  predicate NoSecret(s: State, k: Key) {
    forall p :: p in s.secrets ==> s.secrets[p].owner != Some(k)
  }

  ghost predicate VMNames(request: string, names: seq<string>) {
    forall i :: 0 <= i < |names| ==> IsVMName(request, names[i])
  }

  /** What is true at each program point of a pass. */
  ghost predicate PcOk(s: State, k: Key, pc: Pc) {
    match pc
    case AddFinalizer(spec) => GoodSpec(k, spec) && (k in s.hub ==> SamePlace(s.hub[k].spec, spec))
    case GetCluster(spec, _) => Held(s, k, spec)
    case ReadHubSecret(spec, _) => Held(s, k, spec) && spec.region in s.engaged
    case ReadSpokeSecret(spec, _, _) => Held(s, k, spec) && spec.region in s.engaged
    case CreateSecret(spec, _, _) => Held(s, k, spec) && spec.region in s.engaged
    case UpdateSecret(spec, _, _) => Held(s, k, spec) && spec.region in s.engaged
    case ListVMs(spec, _) => Held(s, k, spec) && spec.region in s.engaged
    case Planning(spec, _, existing) =>
      Held(s, k, spec) && spec.region in s.engaged && VMNames(k.name, existing)
    case Applying(spec, _, plan) =>
      Held(s, k, spec) && spec.region in s.engaged && VMNames(k.name, plan.create) && VMNames(k.name, plan.delete)
    case ListForStatus(spec, _) => Held(s, k, spec) && spec.region in s.engaged
    case PatchStatus(_) => true
    case FinCluster(spec) => Held(s, k, spec) && s.hub[k].marked
    case FinList(spec) => Held(s, k, spec) && s.hub[k].marked && spec.region in s.engaged
    case FinVMs(spec, names) =>
      Held(s, k, spec) && s.hub[k].marked && spec.region in s.engaged && VMNames(k.name, names) &&
      forall p :: p in s.vms && s.vms[p].owner == Some(k) && !s.vms[p].deleting ==> p.name in names
    case FinSecret(spec) => Held(s, k, spec) && s.hub[k].marked && spec.region in s.engaged && NoLiveVm(s, k)
    case Release => k in s.hub && s.hub[k].marked && NoLiveVm(s, k) && NoSecret(s, k)
  }

  ghost predicate Inv(s: State) {
    && (forall k :: k in s.hub ==> HubOk(k, s.hub[k]))
    && (forall p :: p in s.vms ==> VmOk(s, p, s.vms[p]))
    && (forall p :: p in s.secrets ==> SecretOk(s, p, s.secrets[p]))
    && (forall k :: k in s.workers ==> PcOk(s, k, s.workers[k]))
  }

  // ---------- Preservation ----------

  /** A held request stays held, in place, and its cluster stays engaged. */
  predicate Carried(s: State, t: State, k: Key) {
    k in s.hub && s.hub[k].finalizer ==>
      && k in t.hub && t.hub[k].finalizer && (s.hub[k].marked ==> t.hub[k].marked)
      && SamePlace(s.hub[k].spec, t.hub[k].spec) && WellLabelled(k, t.hub[k].spec)
      && (s.hub[k].spec.region in s.engaged ==> s.hub[k].spec.region in t.engaged)
  }

  /** Nothing new of k on the spokes. */
  predicate NothingNew(s: State, t: State, k: Key) {
    && (forall p :: p in t.vms && t.vms[p].owner == Some(k) && !t.vms[p].deleting ==>
          p in s.vms && s.vms[p].owner == Some(k) && !s.vms[p].deleting)
    && (forall p :: p in t.secrets && t.secrets[p].owner == Some(k) ==> p in s.secrets && s.secrets[p].owner == Some(k))
  }

  lemma PcFrame(s: State, t: State, k: Key, pc: Pc)
    requires PcOk(s, k, pc) && Carried(s, t, k) && (k in s.hub ==> HubOk(k, s.hub[k]))
    requires pc.AddFinalizer? && k in t.hub ==> SamePlace(t.hub[k].spec, pc.spec)
    requires pc.FinVMs? || pc.FinSecret? || pc.Release? ==> NothingNew(s, t, k)
    ensures PcOk(t, k, pc)
  {
  }

  /** An owned object is in s already, under the same owner, and is not revived. */
  predicate OldVm(s: State, p: Place, vm: Vm) {
    vm.owner.Some? ==> p in s.vms && s.vms[p].owner == vm.owner && (s.vms[p].deleting ==> vm.deleting) &&
                       (s.prompt ==> s.vms[p].deleting == vm.deleting)
  }

  predicate OldSecret(s: State, p: Place, secret: Secret) {
    secret.owner.Some? ==> p in s.secrets && s.secrets[p].owner == secret.owner
  }

  /** Steps that add no owned object and move no request in use. */
  lemma FrameKeeps(s: State, t: State)
    requires Inv(s) && t.workers == s.workers && t.prompt == s.prompt
    requires forall k :: k in t.hub ==> HubOk(k, t.hub[k])
    requires forall k :: InUse(s, k) ==> Carried(s, t, k)
    requires forall k :: k in s.workers && s.workers[k].AddFinalizer? && k in t.hub ==>
             SamePlace(t.hub[k].spec, s.workers[k].spec)
    requires forall p :: p in t.vms ==> OldVm(s, p, t.vms[p])
    requires forall p :: p in t.secrets ==> OldSecret(s, p, t.secrets[p])
    ensures Inv(t)
  {
    forall p | p in t.vms ensures VmOk(t, p, t.vms[p]) {
      assert OldVm(s, p, t.vms[p]);
      if t.vms[p].owner.Some? {
        assert VmOk(s, p, s.vms[p]);
        if !t.vms[p].deleting { assert InUse(s, t.vms[p].owner.value); }
      }
    }
    forall p | p in t.secrets ensures SecretOk(t, p, t.secrets[p]) {
      assert OldSecret(s, p, t.secrets[p]);
      if t.secrets[p].owner.Some? {
        assert SecretOk(s, p, s.secrets[p]);
        assert InUse(s, t.secrets[p].owner.value);
      }
    }
    forall k | k in t.workers ensures PcOk(t, k, t.workers[k]) {
      assert InUse(s, k) && PcOk(s, k, s.workers[k]);
      assert NothingNew(s, t, k) by {
        forall p | p in t.vms && t.vms[p].owner == Some(k) && !t.vms[p].deleting
          ensures p in s.vms && s.vms[p].owner == Some(k) && !s.vms[p].deleting { assert OldVm(s, p, t.vms[p]); }
        forall p | p in t.secrets && t.secrets[p].owner == Some(k)
          ensures p in s.secrets && s.secrets[p].owner == Some(k) { assert OldSecret(s, p, t.secrets[p]); }
      }
      PcFrame(s, t, k, t.workers[k]);
    }
  }

  /** The AddFinalizer clause of PcOk, for FrameKeeps. */
  lemma PendingFinalizers(s: State)
    requires Inv(s)
    ensures forall k :: k in s.workers && s.workers[k].AddFinalizer? && k in s.hub ==>
            SamePlace(s.hub[k].spec, s.workers[k].spec)
  {
    forall k | k in s.workers && s.workers[k].AddFinalizer? && k in s.hub
      ensures SamePlace(s.hub[k].spec, s.workers[k].spec)
    {
      assert PcOk(s, k, s.workers[k]);
    }
  }

  /** Changing k's status, adding its finalizer or marking it disturbs nobody. */
  lemma HubTouchKeeps(s: State, k: Key, obj: HubObject)
    requires Inv(s) && k in s.hub && obj.spec == s.hub[k].spec
    requires s.hub[k].finalizer ==> obj.finalizer
    requires s.hub[k].marked ==> obj.marked
    requires obj.marked ==> obj.finalizer
    ensures Inv(s.(hub := s.hub[k := obj]))
  {
    assert forall j :: j in s.hub ==> HubOk(j, s.hub[j]);
    PendingFinalizers(s);
    FrameKeeps(s, s.(hub := s.hub[k := obj]));
  }

  lemma GotoKeeps(s: State, k: Key, pc: Option<Pc>)
    requires Inv(s) && (pc.Some? ==> PcOk(s, k, pc.value))
    ensures Inv(Goto(s, k, pc))
  {
    var t := Goto(s, k, pc);
    forall p | p in t.vms ensures VmOk(t, p, t.vms[p]) { assert VmOk(s, p, s.vms[p]); }
    forall p | p in t.secrets ensures SecretOk(t, p, t.secrets[p]) { assert SecretOk(s, p, s.secrets[p]); }
    forall j | j in t.workers ensures PcOk(t, j, t.workers[j]) {
      assert j != k || pc.None? ==> PcOk(s, j, s.workers[j]);
      PcOkIgnoresWorkers(s, t, j, t.workers[j]);
    }
  }

  lemma PcOkIgnoresWorkers(s: State, t: State, k: Key, pc: Pc)
    requires PcOk(s, k, pc) && t.hub == s.hub && t.engaged == s.engaged && t.vms == s.vms && t.secrets == s.secrets
    ensures PcOk(t, k, pc)
  {
  }

  lemma DeleteVmKeeps(s: State, p: Place)
    requires Inv(s)
    ensures Inv(s.(vms := DeleteVm(s.prompt, s.vms, p)))
  {
    PendingFinalizers(s);
    assert forall k :: k in s.hub ==> HubOk(k, s.hub[k]);
    FrameKeeps(s, s.(vms := DeleteVm(s.prompt, s.vms, p)));
  }

  /** A VM enters the namespace of a request that is not being cleaned up. */
  lemma CreateVmKeeps(s: State, k: Key, spec: Spec, name: string)
    requires Inv(s) && k in s.workers && s.workers[k].Applying? && s.workers[k].spec == spec
    requires IsVMName(k.name, name)
    ensures Inv(s.(vms := CreateVm(s.vms, VmPlace(spec, name), k)))
  {
    var t := s.(vms := CreateVm(s.vms, VmPlace(spec, name), k));
    assert PcOk(s, k, s.workers[k]);
    forall q | q in t.vms ensures VmOk(t, q, t.vms[q]) {
      if q in s.vms { assert VmOk(s, q, s.vms[q]); }
      else { assert q == VmPlace(spec, name) && HubOk(k, s.hub[k]); }
    }
    forall q | q in t.secrets ensures SecretOk(t, q, t.secrets[q]) { assert SecretOk(s, q, s.secrets[q]); }
    forall j | j in t.workers ensures PcOk(t, j, t.workers[j]) { OthersUnmoved(s, t, k, j); }
  }

  /** A new object of k is no concern of any other pass. */
  lemma OthersUnmoved(s: State, t: State, k: Key, j: Key)
    requires Inv(s) && k in s.workers && (s.workers[k].Applying? || s.workers[k].CreateSecret?)
    requires t.hub == s.hub && t.engaged == s.engaged && j in s.workers && (j != k ==> NothingNew(s, t, j))
    ensures PcOk(t, j, s.workers[j])
  {
    assert PcOk(s, j, s.workers[j]);
    assert j in s.hub ==> HubOk(j, s.hub[j]);
    PcFrame(s, t, j, s.workers[j]);
  }

  lemma CreateSecretKeeps(s: State, k: Key, spec: Spec, data: Data)
    requires Inv(s) && k in s.workers && s.workers[k].CreateSecret? && s.workers[k].spec == spec
    ensures Inv(s.(secrets := s.secrets[SecretPlace(spec) := Secret(Some(k), data)]))
  {
    var t := s.(secrets := s.secrets[SecretPlace(spec) := Secret(Some(k), data)]);
    assert PcOk(s, k, s.workers[k]);
    assert HubOk(k, s.hub[k]);
    forall q | q in t.vms ensures VmOk(t, q, t.vms[q]) { assert VmOk(s, q, s.vms[q]); }
    forall q | q in t.secrets
      ensures SecretOk(t, q, t.secrets[q]) { assert q in s.secrets ==> SecretOk(s, q, s.secrets[q]); }
    forall j | j in t.workers ensures PcOk(t, j, t.workers[j]) {
      assert PcOk(s, j, s.workers[j]);
      assert j in s.hub ==> HubOk(j, s.hub[j]);
      assert j != k ==> NothingNew(s, t, j);
      PcFrame(s, t, j, t.workers[j]);
    }
  }

  lemma OldSecretsKeep(s: State, secrets: map<Place, Secret>)
    requires Inv(s) && forall p :: p in secrets ==> OldSecret(s, p, secrets[p])
    ensures Inv(s.(secrets := secrets))
  {
    PendingFinalizers(s);
    assert forall k :: k in s.hub ==> HubOk(k, s.hub[k]);
    FrameKeeps(s, s.(secrets := secrets));
  }

  lemma ReleaseKeeps(s: State, k: Key)
    requires Inv(s) && k in s.hub && s.hub[k].marked && NoLiveVm(s, k) && NoSecret(s, k)
    requires k in s.workers && s.workers[k].Release?
    ensures Inv(Goto(s.(hub := WithoutFinalizer(s.hub, k)), k, None))
  {
    var t := Goto(s.(hub := WithoutFinalizer(s.hub, k)), k, None);
    forall p | p in t.vms ensures VmOk(t, p, t.vms[p]) { assert VmOk(s, p, s.vms[p]); }
    forall p | p in t.secrets ensures SecretOk(t, p, t.secrets[p]) { assert SecretOk(s, p, s.secrets[p]); }
    forall j | j in t.workers ensures PcOk(t, j, t.workers[j]) {
      assert PcOk(s, j, s.workers[j]);
      assert j in s.hub ==> HubOk(j, s.hub[j]);
      PcFrame(s, t, j, t.workers[j]);
    }
  }

  lemma BeginKeeps(s: State, k: Key)
    requires Inv(s) && k in s.hub && k !in s.workers
    ensures Inv(Goto(s, k, AfterGet(s.hub[k])))
  {
    assert HubOk(k, s.hub[k]);
    var pc := AfterGet(s.hub[k]);
    if pc.Some? && pc.value.Release? { UnplacedOwnsNothing(s, k); }
    GotoKeeps(s, k, pc);
  }

  lemma HubEffectKeeps(s: State, k: Key, pc: Pc)
    requires Inv(s) && k in s.hub && (pc.AddFinalizer? ==> !s.hub[k].marked || s.hub[k].finalizer)
             && (pc.AddFinalizer? || pc.PatchStatus?)
    ensures Inv(Effect(s, k, pc))
  {
    assert HubOk(k, s.hub[k]);
    HubTouchKeeps(s, k, if pc.AddFinalizer? then s.hub[k].(finalizer := true)
        else s.hub[k].(status := Some(pc.status)));
  }

  lemma SecretEffectKeeps(s: State, k: Key, pc: Pc)
    requires Inv(s) && k in s.workers && s.workers[k] == pc && Accepts(s, k, pc)
    requires pc.CreateSecret? || pc.UpdateSecret? || pc.FinSecret?
    ensures Inv(Effect(s, k, pc))
  {
    assert PcOk(s, k, pc);
    match pc {
      case CreateSecret(spec, _, data) => CreateSecretKeeps(s, k, spec, data);
      case UpdateSecret(spec, _, data) =>
        var p := SecretPlace(spec);
        OldSecretsKeep(s, s.secrets[p := s.secrets[p].(data := data)]);
      case FinSecret(spec) => OldSecretsKeep(s, s.secrets - {SecretPlace(spec)});
    }
  }

  lemma VmEffectKeeps(s: State, k: Key, pc: Pc)
    requires Inv(s) && k in s.workers && s.workers[k] == pc && (pc.Applying? || pc.FinVMs?)
    ensures Inv(Effect(s, k, pc))
  {
    assert PcOk(s, k, pc);
    match VmChangeOf(pc) {
      case Creates(p) => CreateVmKeeps(s, k, pc.spec, p.name);
      case Deletes(p) => DeleteVmKeeps(s, p);
      case Nothing =>
    }
  }

  /** The effect of an accepted call, the finalizer's release apart. */
  lemma EffectKeeps(s: State, k: Key, pc: Pc)
    requires Inv(s) && k in s.workers && s.workers[k] == pc && Accepts(s, k, pc) && !pc.Release?
    ensures Inv(Effect(s, k, pc))
  {
    if pc.AddFinalizer? || pc.PatchStatus? {
      HubEffectKeeps(s, k, pc);
    } else if pc.CreateSecret? || pc.UpdateSecret? || pc.FinSecret? {
      SecretEffectKeeps(s, k, pc);
    } else if pc.Applying? || pc.FinVMs? {
      VmEffectKeeps(s, k, pc);
    } else {
      assert Effect(s, k, pc) == s;
    }
  }

  /** With no live VM or Secret possible, nothing of k is on the spokes. */
  lemma UnplacedOwnsNothing(s: State, k: Key)
    requires Inv(s) && k in s.hub && !(GoodSpec(k, s.hub[k].spec) && s.hub[k].spec.region in s.engaged)
    ensures NoLiveVm(s, k) && NoSecret(s, k)
  {
    forall p | p in s.vms && s.vms[p].owner == Some(k) ensures s.vms[p].deleting { assert VmOk(s, p, s.vms[p]); }
    forall p | p in s.secrets ensures s.secrets[p].owner != Some(k) { assert SecretOk(s, p, s.secrets[p]); }
  }

  lemma FinSecretNext(s: State, k: Key, spec: Spec)
    requires Inv(s) && k in s.workers && s.workers[k] == FinSecret(spec)
    ensures PcOk(Effect(s, k, FinSecret(spec)), k, Release)
  {
    var t := Effect(s, k, FinSecret(spec));
    assert PcOk(s, k, s.workers[k]);
    forall p | p in t.secrets ensures t.secrets[p].owner != Some(k) { assert SecretOk(s, p, s.secrets[p]); }
  }

  /** The calls whose answer is all that the next program point depends on. */
  lemma PlainNext(s: State, k: Key, pc: Pc)
    requires PcOk(s, k, pc) && Accepts(s, k, pc) && !pc.Release? && !NeedsListing(pc)
    requires !pc.FinCluster? && !pc.FinVMs? && !pc.FinSecret? && !pc.Applying?
    ensures var t := Effect(s, k, pc); var next := Next(t, k, pc); next.Some? ==> PcOk(t, k, next.value)
  {
  }

  /** After the call's effect the next program point's condition holds. */
  lemma NextOk(s: State, k: Key, pc: Pc)
    requires Inv(s) && k in s.workers && s.workers[k] == pc && Accepts(s, k, pc) && !pc.Release? && !NeedsListing(pc)
    ensures var t := Effect(s, k, pc); var next := Next(t, k, pc); next.Some? ==> PcOk(t, k, next.value)
  {
    assert PcOk(s, k, pc);
    if pc.FinCluster? {
      if pc.spec.region !in s.engaged { UnplacedOwnsNothing(s, k); }
    } else if pc.FinVMs? {
      FinVMsNext(s, k, pc.spec, pc.names);
    } else if pc.FinSecret? {
      FinSecretNext(s, k, pc.spec);
    } else if pc.Applying? {
      ApplyingNext(s, k, pc.spec, pc.seen, pc.plan);
    } else {
      PlainNext(s, k, pc);
    }
  }

  lemma ApplyingNext(s: State, k: Key, spec: Spec, seen: Option<Status>, plan: Plan)
    requires k in s.workers && PcOk(s, k, Applying(spec, seen, plan))
    ensures var pc := Applying(spec, seen, plan); var t := Effect(s, k, pc);
            Next(t, k, pc).Some? && PcOk(t, k, Next(t, k, pc).value)
  {
    var t := Effect(s, k, Applying(spec, seen, plan));
    assert t.hub == s.hub && t.engaged == s.engaged;
  }

  lemma FinVMsNext(s: State, k: Key, spec: Spec, names: seq<string>)
    requires Inv(s) && k in s.workers && s.workers[k] == FinVMs(spec, names)
    ensures var pc := FinVMs(spec, names); var t := Effect(s, k, pc);
            Next(t, k, pc).Some? && PcOk(t, k, Next(t, k, pc).value)
  {
    var pc := FinVMs(spec, names);
    assert PcOk(s, k, pc);
    var t := Effect(s, k, pc);
    var rest := if names == [] then [] else names[1..];
    assert VMNames(k.name, rest);
    forall p | p in t.vms && t.vms[p].owner == Some(k) && !t.vms[p].deleting ensures p.name in rest {
      assert VmOk(s, p, s.vms[p]);
      assert p.name in names;
      assert p.cluster == spec.region && p.namespace == spec.tenant;
    }
  }

  lemma CallKeeps(s: State, k: Key, reply: Reply)
    requires Inv(s) && ActEnabled(s, k, Call(reply))
    ensures Inv(CallStep(s, k, reply))
  {
    var pc := s.workers[k];
    assert PcOk(s, k, pc);
    if reply == Failed || !Accepts(s, k, pc) {
      GotoKeeps(s, k, None);
    } else if pc.Release? {
      ReleaseKeeps(s, k);
    } else {
      EffectKeeps(s, k, pc);
      NextOk(s, k, pc);
      var t := Effect(s, k, pc);
      GotoKeeps(t, k, if reply == Lost then None else Next(t, k, pc));
    }
  }

  lemma ListedKeeps(s: State, k: Key, names: seq<string>)
    requires Inv(s) && ActEnabled(s, k, Listed(names))
    ensures Inv(ActStep(s, k, Listed(names)))
  {
    var pc := s.workers[k];
    assert PcOk(s, k, pc);
    forall i | 0 <= i < |names| ensures IsVMName(k.name, names[i]) {
      assert names[i] in OwnedNames(s, pc.spec.region, pc.spec.tenant, k);
      var p :| p in Listing(s, pc.spec.region, pc.spec.tenant, k) && p.name == names[i];
      assert VmOk(s, p, s.vms[p]);
    }
    match pc {
      case ListVMs(spec, seen) => GotoKeeps(s, k, Some(Planning(spec, seen, names)));
      case FinList(spec) =>
        forall p | p in s.vms && s.vms[p].owner == Some(k) && !s.vms[p].deleting ensures p.name in names {
          assert VmOk(s, p, s.vms[p]);
          assert p in Listing(s, spec.region, spec.tenant, k);
          assert p.name in OwnedNames(s, spec.region, spec.tenant, k);
        }
        GotoKeeps(s, k, Some(AfterFinList(spec, names)));
    }
  }

  lemma PlannedKeeps(s: State, k: Key, plan: Plan)
    requires Inv(s) && ActEnabled(s, k, Planned(plan))
    ensures Inv(ActStep(s, k, Planned(plan)))
  {
    var pc := s.workers[k];
    assert PcOk(s, k, pc);
    var r := RequestOf(k, pc.spec);
    PlanConverges(r, Elements(pc.existing), plan);
    forall i | 0 <= i < |plan.create| ensures IsVMName(k.name, plan.create[i]) {
      assert plan.create[i] in Elements(plan.create);
    }
    forall i | 0 <= i < |plan.delete| ensures IsVMName(k.name, plan.delete[i]) {
      assert plan.delete[i] in Elements(plan.delete);
      assert plan.delete[i] in pc.existing;
    }
    GotoKeeps(s, k, Some(AfterPlan(pc.spec, pc.seen, plan)));
  }

  lemma UserCreateKeeps(s: State, k: Key, spec: Spec)
    requires Inv(s) && ChangeEnabled(s, UserCreate(k, spec)) && SteadyChange(s, UserCreate(k, spec))
    ensures Inv(ChangeStep(s, UserCreate(k, spec)))
  {
    var t := ChangeStep(s, UserCreate(k, spec));
    assert forall j :: j in s.hub ==> HubOk(j, s.hub[j]);
    assert forall j :: j in s.hub ==> j in t.hub && t.hub[j] == s.hub[j];
    PendingFinalizers(s);
    FrameKeeps(s, t);
  }

  lemma UserEditKeeps(s: State, k: Key, spec: Spec)
    requires Inv(s) && ChangeEnabled(s, UserEdit(k, spec)) && SteadyChange(s, UserEdit(k, spec))
    ensures Inv(ChangeStep(s, UserEdit(k, spec)))
  {
    var t := ChangeStep(s, UserEdit(k, spec));
    assert forall j :: j in s.hub ==> HubOk(j, s.hub[j]);
    assert forall j :: j in s.hub && j != k ==> j in t.hub && t.hub[j] == s.hub[j];
    PendingFinalizers(s);
    assert k in s.workers ==> InUse(s, k);
    FrameKeeps(s, t);
  }

  lemma UserDeleteKeeps(s: State, k: Key)
    requires Inv(s) && ChangeEnabled(s, UserDelete(k))
    ensures Inv(ChangeStep(s, UserDelete(k)))
  {
    if s.hub[k].finalizer {
      HubTouchKeeps(s, k, s.hub[k].(marked := true));
    } else {
      RemovalKeeps(s, k);
    }
  }

  /** A request without the finalizer may go: it is not in use beyond its pass. */
  lemma RemovalKeeps(s: State, k: Key)
    requires Inv(s) && k in s.hub && !s.hub[k].finalizer
    ensures Inv(s.(hub := s.hub - {k}))
  {
    var t := s.(hub := s.hub - {k});
    PendingFinalizers(s);
    assert forall j :: j in t.hub ==> t.hub[j] == s.hub[j] && HubOk(j, s.hub[j]);
    assert forall j :: j in s.hub ==> HubOk(j, s.hub[j]);
    FrameKeeps(s, t);
  }

  lemma SpokeChangeKeeps(s: State, c: Change)
    requires Inv(s) && ChangeEnabled(s, c) && SteadyChange(s, c)
    requires !c.UserCreate? && !c.UserEdit? && !c.UserDelete?
    ensures Inv(ChangeStep(s, c))
  {
    assert forall j :: j in s.hub ==> HubOk(j, s.hub[j]);
    PendingFinalizers(s);
    FrameKeeps(s, ChangeStep(s, c));
  }

  lemma PassesApart(s: State, passes: map<nat, StatusPc>)
    requires Inv(s)
    ensures Inv(s.(passes := passes))
  {
    var t := s.(passes := passes);
    forall p | p in t.vms ensures VmOk(t, p, t.vms[p]) { assert VmOk(s, p, s.vms[p]); }
    forall p | p in t.secrets ensures SecretOk(t, p, t.secrets[p]) { assert SecretOk(s, p, s.secrets[p]); }
    forall k | k in t.workers ensures PcOk(t, k, t.workers[k]) { PcOkIgnoresWorkers(s, t, k, s.workers[k]); }
  }

  lemma StatusKeeps(s: State, p: nat, act: StatusAct)
    requires Inv(s) && StatusEnabled(s, p, act)
    ensures Inv(StatusStep(s, p, act))
  {
    var t := StatusStep(s, p, act);
    var m := s.(passes := t.passes);
    PassesApart(s, t.passes);
    if act.StatusCall? && act.reply != Failed && s.passes[p].StatusPatch? && s.passes[p].key in s.hub {
      var pc := s.passes[p];
      assert HubOk(pc.key, s.hub[pc.key]);
      HubTouchKeeps(m, pc.key, m.hub[pc.key].(status := Some(pc.status)));
    }
  }

  lemma ActKeeps(s: State, k: Key, act: Act)
    requires Inv(s) && ActEnabled(s, k, act)
    ensures Inv(ActStep(s, k, act))
  {
    match act {
      case Begin => if k in s.hub { BeginKeeps(s, k); } else { GotoKeeps(s, k, None); }
      case Call(reply) => CallKeeps(s, k, reply);
      case Listed(names) => ListedKeeps(s, k, names);
      case Planned(plan) => PlannedKeeps(s, k, plan);
      case Crash => GotoKeeps(s, k, None);
    }
  }

  lemma StepKeeps(s: State, e: Event)
    requires Inv(s) && Enabled(s, e) && Steady(s, e)
    ensures Inv(Step(s, e))
  {
    match e {
      case Worker(k, act) => ActKeeps(s, k, act);
      case Pass(p, act) => StatusKeeps(s, p, act);
      case Env(UserCreate(k, spec)) => UserCreateKeeps(s, k, spec);
      case Env(UserEdit(k, spec)) => UserEditKeeps(s, k, spec);
      case Env(UserDelete(k)) => UserDeleteKeeps(s, k);
      case Env(c) => SpokeChangeKeeps(s, c);
    }
  }

  lemma {:induction false} SteadyRunKeeps(s: State, es: seq<Event>)
    requires Inv(s) && SteadyRun(s, es)
    ensures Possible(s, es) && Inv(Run(s, es))
    decreases |es|
  {
    if es != [] {
      StepKeeps(s, es[0]);
      SteadyRunKeeps(Step(s, es[0]), es[1..]);
    }
  }

  // ---------- No orphans ----------

  lemma InitialOk(s: State)
    requires Initial(s)
    ensures Inv(s)
  {
  }

  /** In every interleaving, with any call failing and any crash: a request that
      is off the hub, or has been released, has no Secret on any spoke and no VM
      but those already asked to go. Where deletion is prompt it has no VM. */
  lemma NoOrphans(start: State, es: seq<Event>, k: Key)
    requires Initial(start) && SteadyRun(start, es)
    ensures Possible(start, es)
    ensures var s := Run(start, es);
            k !in s.hub || !s.hub[k].finalizer ==>
              && (forall p :: p in s.vms && s.vms[p].owner == Some(k) ==> s.vms[p].deleting)
              && (forall p :: p in s.secrets ==> s.secrets[p].owner != Some(k))
              && (s.prompt ==> forall p :: p in s.vms ==> s.vms[p].owner != Some(k))
  {
    InitialOk(start);
    SteadyRunKeeps(start, es);
    var s := Run(start, es);
    if k !in s.hub || !s.hub[k].finalizer {
      forall p | p in s.vms && s.vms[p].owner == Some(k)
        ensures s.vms[p].deleting && !s.prompt { assert VmOk(s, p, s.vms[p]); }
      forall p | p in s.secrets ensures s.secrets[p].owner != Some(k) { assert SecretOk(s, p, s.secrets[p]); }
    }
  }

  /** Whatever a request owns on a spoke is on the one spoke it is placed on,
      in its tenant namespace, under a name only it uses. */
  lemma OwnedObjectsAreHome(start: State, es: seq<Event>, p: Place, k: Key)
    requires Initial(start) && SteadyRun(start, es) && Possible(start, es)
    requires var s := Run(start, es); p in s.vms && s.vms[p].owner == Some(k) && !s.vms[p].deleting
    ensures var s := Run(start, es);
            && k in s.hub && s.hub[k].finalizer && s.hub[k].spec.valid
            && p.cluster == s.hub[k].spec.region && p.namespace == k.namespace
            && exists i: nat :: p.name == VMName(k.name, i)
  {
    InitialOk(start);
    SteadyRunKeeps(start, es);
    assert VmOk(Run(start, es), p, Run(start, es).vms[p]);
  }

  // ---------- Isolation ----------

  /** In no interleaving does a pass over one request touch, or find in its
      way, a VM of another. */
  lemma Isolation(start: State, es: seq<Event>, e: Event, k: Key, p: Place)
    requires Initial(start) && SteadyRun(start, es) && Possible(start, es)
    requires var s := Run(start, es); Enabled(s, e) && Moves(e, k) && p in s.vms
    requires var s := Run(start, es); s.vms[p].owner.Some? && s.vms[p].owner != Some(k)
    ensures var s := Run(start, es);
            && p in Step(s, e).vms && Step(s, e).vms[p] == s.vms[p]
            && (k in s.workers && s.workers[k].Applying? && s.workers[k].plan.create != [] ==>
                  p != VmPlace(s.workers[k].spec, s.workers[k].plan.create[0]))
  {
    InitialOk(start);
    SteadyRunKeeps(start, es);
    var s := Run(start, es);
    assert VmOk(s, p, s.vms[p]);
    ForeignName(s, p, k);
    StepVms(s, e);
    if k in s.workers { ChangesOwnNames(s, k); }
  }

  /** A pass creates and deletes VMs in its own namespace, under its own names. */
  lemma ChangesOwnNames(s: State, k: Key)
    requires k in s.workers && PcOk(s, k, s.workers[k])
    ensures var change := VmChangeOf(s.workers[k]);
            change != Nothing ==> change.place.namespace == k.namespace && IsVMName(k.name, change.place.name)
  {
  }

  /** No name of k's, in k's namespace, is a VM of another request. */
  lemma ForeignName(s: State, p: Place, k: Key)
    requires p in s.vms && VmOk(s, p, s.vms[p]) && s.vms[p].owner.Some? && s.vms[p].owner != Some(k)
    ensures p.namespace == k.namespace ==> !IsVMName(k.name, p.name)
  {
    var j := s.vms[p].owner.value;
    var i: nat :| p.name == VMName(j.name, i);
    forall m: nat | p.namespace == k.namespace ensures p.name != VMName(k.name, m) {
      if p.name == VMName(k.name, m) { VMNameInjective(j.name, i, k.name, m); }
    }
  }

  // ---------- Shared Secrets ----------

  /** The answered call at pc takes the Secret at this place away, or changes its data. */
  predicate Takes(pc: Pc, place: Place) { pc.FinSecret? && SecretPlace(pc.spec) == place }

  predicate Rewrites(s: State, pc: Pc, place: Place)
    requires place in s.secrets
  {
    pc.UpdateSecret? && SecretPlace(pc.spec) == place && pc.data != s.secrets[place].data
  }

  predicate Untouched(s: State, t: State, place: Place)
    requires place in s.secrets
  {
    place in t.secrets && t.secrets[place] == s.secrets[place]
  }

  lemma CallTouches(s: State, k: Key, reply: Reply, place: Place)
    requires k in s.workers && place in s.secrets
    ensures !Untouched(s, CallStep(s, k, reply), place)
            <==> reply != Failed && (Takes(s.workers[k], place) || Rewrites(s, s.workers[k], place))
  {
  }

  /** Secrets are not isolated as VMs are. In every reachable state a step of
      k's pass takes away or changes the copy at j's Secret place exactly when
      k's placement names that very place and the call is cleanup's delete or an
      update with other data: requests of one namespace, region and Secret name
      share the copy, and the first to be cleaned up takes it from the others. */
  lemma SharedSecrets(start: State, es: seq<Event>, e: Event, k: Key, j: Key)
    requires Initial(start) && SteadyRun(start, es) && Possible(start, es)
    requires var s := Run(start, es);
             Enabled(s, e) && Moves(e, k) && j in s.hub && SecretPlace(s.hub[j].spec) in s.secrets
    ensures var s := Run(start, es); var place := SecretPlace(s.hub[j].spec);
            !Untouched(s, Step(s, e), place) <==>
              && e.act.Call? && e.act.reply != Failed && k in s.hub && SecretPlace(s.hub[k].spec) == place
              && (s.workers[k].FinSecret? || (s.workers[k].UpdateSecret? && s.workers[k].data != s.secrets[place].data))
    ensures var s := Run(start, es);
            j.namespace != k.namespace ==> Untouched(s, Step(s, e), SecretPlace(s.hub[j].spec))
  {
    InitialOk(start);
    SteadyRunKeeps(start, es);
    var s := Run(start, es);
    assert HubOk(j, s.hub[j]);
    if e.act.Call? {
      assert PcOk(s, k, s.workers[k]);
      CallTouches(s, k, e.act.reply, SecretPlace(s.hub[j].spec));
    } else {
      ActFrame(s, k, e.act);
    }
  }
}
