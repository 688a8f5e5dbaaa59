/** Two writers, one status. The request controller and any number of status
    passes write the same field without locking; once the spoke holds still
    they agree, and then fall silent. */
module VmStatus {
  import opened Options
  import opened VmDomain
  import opened VmProtocol

  /** A live request, placed on an engaged cluster. */
  predicate Placed(s: State, k: Key) {
    k in s.hub && !s.hub[k].marked && s.hub[k].spec.valid && s.hub[k].spec.tenant != ""
        && s.hub[k].spec.region in s.engaged
  }

  /** The status k's spoke calls for. */
  function Target(s: State, k: Key): Status
    requires k in s.hub
  {
    StatusFor(s, s.hub[k].spec.region, k, s.hub[k].spec)
  }

  /** k keeps its spec and its place, and its spoke keeps calling for the same status. */
  predicate Still(s: State, t: State, k: Key) {
    Placed(s, k) && Placed(t, k) && t.hub[k].spec == s.hub[k].spec && Target(t, k) == Target(s, k)
  }

  predicate StillRun(s: State, es: seq<Event>, k: Key)
    decreases |es|
  {
    es == [] || (Enabled(s, es[0]) && Still(s, Step(s, es[0]), k) && StillRun(Step(s, es[0]), es[1..], k))
  }

  function Agreed(s: State, k: Key): bool
    requires k in s.hub
  {
    s.hub[k].status == Some(Target(s, k))
  }

  // ---------- Passes ----------

  /** The copy of the status a request pass works with, once it has one. */
  function SeenBy(pc: Pc): Option<Option<Status>> {
    match pc
    case GetCluster(_, seen) => Some(seen)
    case ReadHubSecret(_, seen) => Some(seen)
    case ReadSpokeSecret(_, seen, _) => Some(seen)
    case CreateSecret(_, seen, _) => Some(seen)
    case UpdateSecret(_, seen, _) => Some(seen)
    case ListVMs(_, seen) => Some(seen)
    case Planning(_, seen, _) => Some(seen)
    case Applying(_, seen, _) => Some(seen)
    case ListForStatus(_, seen) => Some(seen)
    case _ => None
  }

  /** No pass over k is in flight. */
  predicate Idle(s: State, k: Key) {
    k !in s.workers && forall p :: p in s.passes ==> s.passes[p].key != k
  }

  /** Passes over k that were in flight at some earlier moment. */
  datatype Elders = Elders(worker: bool, passes: set<nat>)

  const NO_ELDERS := Elders(false, {})

  function InFlight(s: State, k: Key): Elders {
    Elders(k in s.workers, set p | p in s.passes && s.passes[p].key == k)
  }

  /** An elder that ended makes room for a younger pass of the same number. */
  function Remaining(s: State, k: Key, elders: Elders): Elders {
    Elders(elders.worker && k in s.workers, elders.passes * s.passes.Keys)
  }

  /** The elders that are still in flight after a run. */
  function EldersAfter(s: State, es: seq<Event>, k: Key, elders: Elders): Elders
    requires Possible(s, es)
    decreases |es|
  {
    if es == [] then elders
    else var t := Step(s, es[0]); EldersAfter(t, es[1..], k, Remaining(t, k, elders))
  }

  /** The event is a step of an elder. */
  predicate ByElder(e: Event, k: Key, elders: Elders) {
    match e
    case Worker(j, _) => j == k && elders.worker
    case Pass(p, _) => p in elders.passes
    case Env(_) => false
  }

  /** The event ends a pass over k that got as far as comparing or writing the status. */
  predicate Completes(s: State, e: Event, k: Key)
    requires k in s.hub
  {
    match e
    case Worker(j, Call(Ok)) =>
      j == k && k in s.workers &&
      (s.workers[k].PatchStatus? ||
       (s.workers[k].ListForStatus?
           && s.workers[k].seen == Some(StatusFor(s, s.workers[k].spec.region, k, s.workers[k].spec))))
    case Pass(p, StatusCall(Ok)) =>
      p in s.passes && s.passes[p].key == k &&
      (s.passes[p].StatusPatch? ||
       (s.passes[p].StatusList? && s.passes[p].seen == Some(StatusFor(s, s.passes[p].cluster, k, s.passes[p].spec))))
    case _ => false
  }

  // ---------- Bound passes ----------

  /** The pass works on k as it is, and a status it is about to write is the target. */
  predicate WorkerBound(s: State, k: Key, pc: Pc)
    requires k in s.hub
  {
    match pc
    case AddFinalizer(spec) => spec == s.hub[k].spec
    case PatchStatus(status) => status == Target(s, k)
    case _ => SeenBy(pc).Some? && pc.spec == s.hub[k].spec
  }

  predicate PassBound(s: State, k: Key, pc: StatusPc)
    requires k in s.hub
  {
    pc.key == k ==>
      match pc
      case StatusGet(_, _) => true
      case StatusList(cluster, _, spec, _) => spec == s.hub[k].spec && cluster == spec.region
      case StatusPatch(_, status) => status == Target(s, k)
  }

  /** All but the elders are bound. */
  predicate YoungBound(s: State, k: Key, elders: Elders)
    requires k in s.hub
  {
    && (k in s.workers && !elders.worker ==> WorkerBound(s, k, s.workers[k]))
    && forall p :: p in s.passes && p !in elders.passes ==> PassBound(s, k, s.passes[p])
  }

  predicate AllBound(s: State, k: Key)
    requires k in s.hub
  {
    YoungBound(s, k, NO_ELDERS)
  }

  /** A pass that begins while the spoke holds still is bound, and stays so. */
  lemma BoundStep(s: State, e: Event, k: Key, elders: Elders)
    requires Enabled(s, e) && Still(s, Step(s, e), k) && YoungBound(s, k, elders)
    ensures YoungBound(Step(s, e), k, Remaining(Step(s, e), k, elders))
  {
    var t := Step(s, e);
    PassesElsewhere(s, e);
    forall p | p in t.passes && p !in Remaining(t, k, elders).passes ensures PassBound(t, k, t.passes[p]) {
      if e.Pass? && e.pass == p { PassBoundStep(s, p, e.statusAct, k, elders); }
      else { assert PassBound(s, k, s.passes[p]); }
    }
    if e.Worker? && e.key == k { WorkerBoundStep(s, k, e.act, elders); } else { StepWorkers(s, e, k); }
  }

  lemma PassBoundStep(s: State, p: nat, act: StatusAct, k: Key, elders: Elders)
    requires StatusEnabled(s, p, act) && Still(s, StatusStep(s, p, act), k) && YoungBound(s, k, elders)
    ensures var t := StatusStep(s, p, act);
            p in t.passes && p !in Remaining(t, k, elders).passes ==> PassBound(t, k, t.passes[p])
  {
    StatusFrame(s, p, act);
    assert p in s.passes && p !in elders.passes ==> PassBound(s, k, s.passes[p]);
  }

  lemma WorkerBoundStep(s: State, k: Key, act: Act, elders: Elders)
    requires ActEnabled(s, k, act) && Still(s, ActStep(s, k, act), k) && YoungBound(s, k, elders)
    ensures var t := ActStep(s, k, act);
            k in t.workers && !Remaining(t, k, elders).worker ==> WorkerBound(t, k, t.workers[k])
  {
    ActFrame(s, k, act);
    if act.Call? && !elders.worker { WorkerCallBound(s, k, act.reply); }
  }

  lemma WorkerCallBound(s: State, k: Key, reply: Reply)
    requires ActEnabled(s, k, Call(reply)) && Still(s, CallStep(s, k, reply), k) && WorkerBound(s, k, s.workers[k])
    ensures var t := CallStep(s, k, reply); k in t.workers ==> WorkerBound(t, k, t.workers[k])
  {
    var pc, t := s.workers[k], CallStep(s, k, reply);
    if reply == Ok && Accepts(s, k, pc) {
      var after := Effect(s, k, pc);
      assert t == Goto(after, k, Next(after, k, pc));
      SameTarget(after, t, k);
      NextBound(s, after, k, pc);
    }
  }

  lemma NextBound(s: State, after: State, k: Key, pc: Pc)
    requires after == Effect(s, k, pc) && !NeedsListing(pc) && Accepts(s, k, pc)
    requires Still(s, after, k) && WorkerBound(s, k, pc)
    ensures var next := Next(after, k, pc); next.Some? ==> WorkerBound(after, k, next.value)
  {
  }

  lemma SameTarget(s: State, t: State, k: Key)
    requires k in s.hub && t.hub == s.hub && t.vms == s.vms
    ensures Target(s, k) == Target(t, k)
  {
    var spec := s.hub[k].spec;
    assert ReadyNames(s, spec.region, spec.tenant, k) == ReadyNames(t, spec.region, spec.tenant, k);
  }

  lemma PassesElsewhere(s: State, e: Event)
    requires Enabled(s, e)
    ensures var t := Step(s, e); forall p :: p in t.passes && !(e.Pass? && e.pass == p) ==>
            p in s.passes && t.passes[p] == s.passes[p]
  {
    if e.Worker? { ActFrame(s, e.key, e.act); }
  }

  /** Where every pass is bound, a step leaves the status alone or sets the target. */
  lemma StatusAfter(s: State, e: Event, k: Key)
    requires Enabled(s, e) && Still(s, Step(s, e), k) && AllBound(s, k)
    ensures Step(s, e).hub[k].status == s.hub[k].status || Agreed(Step(s, e), k)
    ensures Agreed(s, k) ==> Agreed(Step(s, e), k)
  {
    match e {
      case Worker(j, act) =>
        ActFrame(s, j, act);
        if act.Call? && j == k { WorkerStatus(s, k, act.reply); }
        if act.Call? && j != k { HubElsewhere(s.hub, j, s.workers[j], k); }
      case Pass(p, act) =>
        PassStatus(s, p, act, k);
        assert p in s.passes ==> PassBound(s, k, s.passes[p]);
      case Env(c) => ChangeStatus(s.hub, c, k);
    }
  }

  lemma PassStatus(s: State, p: nat, act: StatusAct, k: Key)
    requires StatusEnabled(s, p, act) && k in s.hub
    ensures var t := StatusStep(s, p, act);
            && k in t.hub && t.vms == s.vms
            && (t.hub[k].status == s.hub[k].status ||
                (p in s.passes && s.passes[p].StatusPatch? && s.passes[p].key == k
                    && t.hub[k].status == Some(s.passes[p].status)))
  {
  }

  lemma HubElsewhere(hub: map<Key, HubObject>, j: Key, pc: Pc, k: Key)
    requires j != k && k in hub
    ensures k in HubEffect(hub, j, pc) && HubEffect(hub, j, pc)[k] == hub[k]
  {
  }

  lemma ChangeStatus(hub: map<Key, HubObject>, c: Change, k: Key)
    requires k in hub && k in HubAfter(hub, c) && !(c.UserCreate? && c.key in hub)
    ensures HubAfter(hub, c)[k].status == hub[k].status
  {
  }

  lemma WorkerStatus(s: State, k: Key, reply: Reply)
    requires k in s.workers && k in s.hub && WorkerBound(s, k, s.workers[k])
    ensures var hub := CallStep(s, k, reply).hub;
            k in hub && (hub[k].status == s.hub[k].status || hub[k].status == Some(Target(s, k)))
  {
  }

  // ---------- Trusted copies ----------

  /** A young pass that would not write trusts a copy that still stands. */
  predicate YoungTrusted(s: State, k: Key, elders: Elders)
    requires k in s.hub
  {
    && (k in s.workers && !elders.worker && SeenBy(s.workers[k]) == Some(Some(Target(s, k))) ==> Agreed(s, k))
    && forall p :: p in s.passes && p !in elders.passes && PassSaw(s.passes[p], k, Target(s, k)) ==> Agreed(s, k)
  }

  predicate PassSaw(pc: StatusPc, k: Key, status: Status) { pc.key == k && pc.StatusList? && pc.seen == Some(status) }

  lemma TrustStep(s: State, e: Event, k: Key, elders: Elders)
    requires Enabled(s, e) && Still(s, Step(s, e), k) && AllBound(s, k) && YoungTrusted(s, k, elders)
    ensures YoungTrusted(Step(s, e), k, Remaining(Step(s, e), k, elders))
  {
    var t := Step(s, e);
    StatusAfter(s, e, k);
    PassesElsewhere(s, e);
    forall p | p in t.passes && p !in Remaining(t, k, elders).passes && PassSaw(t.passes[p], k, Target(t, k))
      ensures Agreed(t, k)
    {
      if e.Pass? && e.pass == p { PassTrustStep(s, p, e.statusAct, k, elders); }
      else { assert PassSaw(s.passes[p], k, Target(s, k)); }
    }
    if e.Worker? && e.key == k { WorkerTrustStep(s, k, e.act, elders); } else { StepWorkers(s, e, k); }
  }

  lemma PassTrustStep(s: State, p: nat, act: StatusAct, k: Key, elders: Elders)
    requires StatusEnabled(s, p, act) && Still(s, StatusStep(s, p, act), k) && YoungTrusted(s, k, elders)
    requires Agreed(s, k) ==> Agreed(StatusStep(s, p, act), k)
    ensures var t := StatusStep(s, p, act);
            p in t.passes && p !in Remaining(t, k, elders).passes && PassSaw(t.passes[p], k, Target(t, k)) ==>
                Agreed(t, k)
  {
    StatusFrame(s, p, act);
  }

  lemma WorkerTrustStep(s: State, k: Key, act: Act, elders: Elders)
    requires ActEnabled(s, k, act) && Still(s, ActStep(s, k, act), k) && YoungTrusted(s, k, elders)
    requires Agreed(s, k) ==> Agreed(ActStep(s, k, act), k)
    ensures var t := ActStep(s, k, act);
            k in t.workers && !Remaining(t, k, elders).worker && SeenBy(t.workers[k]) == Some(Some(Target(t, k))) ==>
                Agreed(t, k)
  {
    ActFrame(s, k, act);
    if act.Call? && !elders.worker {
      var pc, t := s.workers[k], CallStep(s, k, act.reply);
      if act.reply == Ok && Accepts(s, k, pc) { NextTrusts(s, Effect(s, k, pc), k, pc); }
    }
  }

  /** A call keeps the pass's copy of the status, or takes the one on the hub. */
  lemma NextTrusts(s: State, after: State, k: Key, pc: Pc)
    requires after == Effect(s, k, pc) && !NeedsListing(pc) && k in after.hub
    ensures var next := Next(after, k, pc);
            next.Some? && SeenBy(next.value).Some? ==>
              if pc.AddFinalizer? then SeenBy(next.value) == Some(after.hub[k].status)
                 else SeenBy(next.value) == SeenBy(pc)
  {
  }

  /** A young pass that ends where the status is compared or written leaves the target behind. */
  lemma CompletionAgrees(s: State, e: Event, k: Key, elders: Elders)
    requires Enabled(s, e) && Still(s, Step(s, e), k) && AllBound(s, k) && YoungTrusted(s, k, elders)
    requires Completes(s, e, k) && !ByElder(e, k, elders)
    ensures Agreed(Step(s, e), k)
  {
    StatusAfter(s, e, k);
    match e {
      case Worker(_, Call(reply)) => if s.workers[k].PatchStatus? { PatchLands(s, k); }
      case Pass(p, act) => assert PassBound(s, k, s.passes[p]);
    }
  }

  lemma PatchLands(s: State, k: Key)
    requires k in s.workers && s.workers[k].PatchStatus? && k in s.hub
    ensures var hub := CallStep(s, k, Ok).hub; k in hub && hub[k].status == Some(s.workers[k].status)
  {
  }

  // ---------- Runs ----------

  lemma {:induction false} StillSplits(s: State, es: seq<Event>, fs: seq<Event>, k: Key)
    requires StillRun(s, es + fs, k)
    ensures StillRun(s, es, k) && Possible(s, es) && StillRun(Run(s, es), fs, k)
    ensures Possible(s, es + fs) && Possible(Run(s, es), fs) && Run(s, es + fs) == Run(Run(s, es), fs)
    decreases |es|
  {
    if es == [] {
      assert es + fs == fs;
      StillIsPossible(s, fs, k);
    } else {
      assert (es + fs)[1..] == es[1..] + fs;
      StillSplits(Step(s, es[0]), es[1..], fs, k);
    }
  }

  lemma {:induction false} StillIsPossible(s: State, es: seq<Event>, k: Key)
    requires StillRun(s, es, k)
    ensures Possible(s, es)
    decreases |es|
  {
    if es != [] { StillIsPossible(Step(s, es[0]), es[1..], k); }
  }

  /** Once the elders have ended, every pass is bound. */
  lemma {:induction false} BoundAlong(s: State, es: seq<Event>, k: Key, elders: Elders)
    requires k in s.hub && StillRun(s, es, k) && Possible(s, es) && YoungBound(s, k, elders)
    ensures k in Run(s, es).hub && Target(Run(s, es), k) == Target(s, k)
    ensures YoungBound(Run(s, es), k, EldersAfter(s, es, k, elders))
    decreases |es|
  {
    if es != [] {
      var t := Step(s, es[0]);
      BoundStep(s, es[0], k, elders);
      BoundAlong(t, es[1..], k, Remaining(t, k, elders));
    }
  }

  lemma {:induction false} TrustAlong(s: State, es: seq<Event>, k: Key, elders: Elders)
    requires k in s.hub && StillRun(s, es, k) && Possible(s, es) && AllBound(s, k) && YoungTrusted(s, k, elders)
    ensures k in Run(s, es).hub && Target(Run(s, es), k) == Target(s, k) && AllBound(Run(s, es), k)
    ensures YoungTrusted(Run(s, es), k, EldersAfter(s, es, k, elders))
    decreases |es|
  {
    if es != [] {
      var t := Step(s, es[0]);
      BoundStep(s, es[0], k, NO_ELDERS);
      TrustStep(s, es[0], k, elders);
      TrustAlong(t, es[1..], k, Remaining(t, k, elders));
    }
  }

  lemma {:induction false} StaysAgreed(s: State, es: seq<Event>, k: Key)
    requires k in s.hub && AllBound(s, k) && Agreed(s, k) && StillRun(s, es, k) && Possible(s, es)
    ensures k in Run(s, es).hub && Target(Run(s, es), k) == Target(s, k)
    ensures Agreed(Run(s, es), k) && AllBound(Run(s, es), k)
    decreases |es|
  {
    if es != [] {
      BoundStep(s, es[0], k, NO_ELDERS);
      StatusAfter(s, es[0], k);
      StaysAgreed(Step(s, es[0]), es[1..], k);
    }
  }

  /** Where no pass is older than the stillness, every pass is bound: with
      nothing in flight, or once `older` has seen every earlier pass end. */
  lemma OlderPassesEnd(s: State, older: seq<Event>, k: Key)
    requires k in s.hub && StillRun(s, older, k) && Possible(s, older)
    requires EldersAfter(s, older, k, InFlight(s, k)) == NO_ELDERS
    ensures k in Run(s, older).hub && AllBound(Run(s, older), k) && Target(Run(s, older), k) == Target(s, k)
  {
    forall p | p in s.passes && p !in InFlight(s, k).passes ensures PassBound(s, k, s.passes[p]) {}
    BoundAlong(s, older, k, InFlight(s, k));
  }

  /** Eventual agreement. From s on, k's spoke keeps calling for one status. In
      `older` every pass over k that was in flight at s ends. The first pass of
      either controller that begins after that and completes, at e, leaves the
      status the spoke calls for, and it stays, whatever overlapping passes do
      and whichever calls fail. */
  lemma Agreement(s: State, older: seq<Event>, before: seq<Event>, e: Event, after: seq<Event>, k: Key)
    requires k in s.hub && StillRun(s, older + (before + ([e] + after)), k)
    requires Possible(s, older) && EldersAfter(s, older, k, InFlight(s, k)) == NO_ELDERS
    requires var b := Run(s, older);
             && Possible(b, before) && k in Run(b, before).hub && Completes(Run(b, before), e, k)
             && !ByElder(e, k, EldersAfter(b, before, k, InFlight(b, k)))
    ensures var es := older + (before + ([e] + after));
            && Possible(s, es) && k in Run(s, es).hub
            && Run(s, es).hub[k].status == Some(Target(s, k)) && Agreed(Run(s, es), k) && AllBound(Run(s, es), k)
    ensures var t := Run(s, older + (before + ([e] + after)));
            t.hub[k].status.Some? && Reports(t, k, t.hub[k].spec, t.hub[k].status.value)
  {
    StillSplits(s, older, before + ([e] + after), k);
    OlderPassesEnd(s, older, k);
    var b := Run(s, older);
    StillSplits(b, before, [e] + after, k);
    TrustAlong(b, before, k, InFlight(b, k));
    var c := Run(b, before);
    assert ([e] + after)[0] == e && ([e] + after)[1..] == after;
    CompletionAgrees(c, e, k, EldersAfter(b, before, k, InFlight(b, k)));
    BoundStep(c, e, k, NO_ELDERS);
    StaysAgreed(Step(c, e), after, k);
    var t := Run(Step(c, e), after);
    StillEnds(Step(c, e), after, k);
    StatusForReports(t, k, t.hub[k].spec);
  }

  lemma {:induction false} StillEnds(s: State, es: seq<Event>, k: Key)
    requires Placed(s, k) && StillRun(s, es, k) && Possible(s, es)
    ensures Placed(Run(s, es), k)
    decreases |es|
  {
    if es != [] { StillEnds(Step(s, es[0]), es[1..], k); }
  }

  /** The events that complete a pass, in plain terms: an answered call that
      lists for the status or writes it, after which the pass is over. */
  lemma CompletesMeans(s: State, e: Event, k: Key)
    requires Enabled(s, e) && k in s.hub
    ensures Completes(s, e, k) <==>
            || (e == Worker(k, Call(Ok)) && k !in Step(s, e).workers &&
                (s.workers[k].PatchStatus? || s.workers[k].ListForStatus?))
            || (e.Pass? && e.statusAct == StatusCall(Ok) && e.pass !in Step(s, e).passes && s.passes[e.pass].key == k &&
                (s.passes[e.pass].StatusPatch? || s.passes[e.pass].StatusList?))
  {
    if e == Worker(k, Call(Ok)) { CallEnds(s, k); }
    if e.Pass? && e.statusAct == StatusCall(Ok) { PassEnds(s, e.pass); }
  }

  lemma CallEnds(s: State, k: Key)
    requires k in s.hub && k in s.workers
    ensures s.workers[k].PatchStatus? ==> k !in CallStep(s, k, Ok).workers
    ensures s.workers[k].ListForStatus? ==>
              var pc := s.workers[k];
              (k !in CallStep(s, k, Ok).workers <==> pc.seen == Some(StatusFor(s, pc.spec.region, k, pc.spec)))
  {
  }

  lemma PassEnds(s: State, p: nat)
    requires p in s.passes
    ensures s.passes[p].StatusPatch? ==> p !in StatusStep(s, p, StatusCall(Ok)).passes
    ensures s.passes[p].StatusList? ==>
              var pc := s.passes[p];
              (p !in StatusStep(s, p, StatusCall(Ok)).passes
               <==> pc.seen == Some(StatusFor(s, pc.cluster, pc.key, pc.spec)))
  {
  }

  // ---------- Silence ----------

  /** The event is a status write for k by a pass that is not among the elders. */
  predicate YoungWrite(s: State, e: Event, k: Key, elders: Elders) {
    match e
    case Worker(j, Call(_)) => j == k && !elders.worker && k in s.workers && s.workers[k].PatchStatus?
    case Pass(p, StatusCall(_)) => p !in elders.passes && p in s.passes && s.passes[p].key == k
         && s.passes[p].StatusPatch?
    case _ => false
  }

  predicate NoYoungWrites(s: State, es: seq<Event>, k: Key, elders: Elders)
    decreases |es|
  {
    es == [] || (Enabled(s, es[0]) && !YoungWrite(s, es[0], k, elders) &&
                 var t := Step(s, es[0]); NoYoungWrites(t, es[1..], k, Remaining(t, k, elders)))
  }

  /** Every pass but the elders has seen the target, or has not read the request yet. */
  predicate YoungSeen(s: State, k: Key, elders: Elders)
    requires k in s.hub
  {
    && (k in s.workers && !elders.worker ==>
          s.workers[k].AddFinalizer? || SeenBy(s.workers[k]) == Some(Some(Target(s, k))))
    && forall p :: p in s.passes && s.passes[p].key == k && p !in elders.passes ==>
         s.passes[p].StatusGet? || (s.passes[p].StatusList? && s.passes[p].seen == Some(Target(s, k)))
  }

  /** Silence: once the status is agreed, whoever writes it later was in flight
      then already; no pass begun since writes, even one overlapping such passes. */
  lemma Silence(s: State, before: seq<Event>, e: Event, after: seq<Event>, k: Key)
    requires k in s.hub && AllBound(s, k) && Agreed(s, k) && StillRun(s, before + ([e] + after), k)
    ensures Possible(s, before)
    ensures var t := Run(s, before);
            || (e.Worker? && e.key == k && e.act.Call? && k in t.workers && t.workers[k].PatchStatus?)
            || (e.Pass? && e.statusAct.StatusCall? && e.pass in t.passes && t.passes[e.pass].key == k &&
                t.passes[e.pass].StatusPatch?)
            ==> ByElder(e, k, EldersAfter(s, before, k, InFlight(s, k)))
  {
    StillSplits(s, before, [e] + after, k);
    SilentAlong(s, before + ([e] + after), k, InFlight(s, k));
    SilentAt(s, before, e, after, k, InFlight(s, k));
  }

  lemma {:induction false} SilentAt(s: State, before: seq<Event>, e: Event, after: seq<Event>, k: Key, elders: Elders)
    requires Possible(s, before) && NoYoungWrites(s, before + ([e] + after), k, elders)
    ensures !YoungWrite(Run(s, before), e, k, EldersAfter(s, before, k, elders))
    decreases |before|
  {
    var es := before + ([e] + after);
    if before == [] {
      assert es[0] == e;
    } else {
      assert es[0] == before[0] && es[1..] == before[1..] + ([e] + after);
      var t := Step(s, before[0]);
      SilentAt(t, before[1..], e, after, k, Remaining(t, k, elders));
    }
  }

  lemma {:induction false} SilentAlong(s: State, es: seq<Event>, k: Key, elders: Elders)
    requires k in s.hub && AllBound(s, k) && Agreed(s, k) && StillRun(s, es, k) && YoungSeen(s, k, elders)
    requires elders.worker ==> k in s.workers
    ensures NoYoungWrites(s, es, k, elders)
    decreases |es|
  {
    if es != [] {
      var t := Step(s, es[0]);
      BoundStep(s, es[0], k, NO_ELDERS);
      StatusAfter(s, es[0], k);
      SilentStep(s, es[0], k, elders);
      SilentAlong(t, es[1..], k, Remaining(t, k, elders));
    }
  }

  lemma SilentStep(s: State, e: Event, k: Key, elders: Elders)
    requires Enabled(s, e) && Still(s, Step(s, e), k) && AllBound(s, k) && Agreed(s, k) && YoungSeen(s, k, elders)
    requires Agreed(Step(s, e), k) && (elders.worker ==> k in s.workers)
    ensures !YoungWrite(s, e, k, elders)
    ensures YoungSeen(Step(s, e), k, Remaining(Step(s, e), k, elders))
  {
    var t := Step(s, e);
    PassesElsewhere(s, e);
    if e.Pass? { SilentPass(s, e.pass, e.statusAct, k, elders); }
    SilentPasses(s, t, k, elders, if e.Pass? then Some(e.pass) else None);
    if e.Worker? && e.key == k { SilentWorker(s, k, e.act, elders); }
    else { StepWorkers(s, e, k); SilentElsewhere(s, t, k, elders); }
  }

  lemma SilentPasses(s: State, t: State, k: Key, elders: Elders, moved: Option<nat>)
    requires Still(s, t, k) && YoungSeen(s, k, elders)
    requires forall p :: p in t.passes && moved != Some(p) ==> p in s.passes && t.passes[p] == s.passes[p]
    ensures forall p :: p in t.passes && moved != Some(p) && t.passes[p].key == k &&
                        p !in Remaining(t, k, elders).passes ==>
              t.passes[p].StatusGet? || (t.passes[p].StatusList? && t.passes[p].seen == Some(Target(t, k)))
  {
  }

  lemma SilentElsewhere(s: State, t: State, k: Key, elders: Elders)
    requires Still(s, t, k) && YoungSeen(s, k, elders) && (elders.worker ==> k in s.workers)
    requires (k in t.workers <==> k in s.workers) && (k in s.workers ==> t.workers[k] == s.workers[k])
    ensures k in t.workers && !Remaining(t, k, elders).worker ==>
              t.workers[k].AddFinalizer? || SeenBy(t.workers[k]) == Some(Some(Target(t, k)))
  {
  }

  lemma SilentWorker(s: State, k: Key, act: Act, elders: Elders)
    requires ActEnabled(s, k, act) && Still(s, ActStep(s, k, act), k) && AllBound(s, k) && Agreed(s, k)
             && YoungSeen(s, k, elders)
    requires Agreed(ActStep(s, k, act), k) && (elders.worker ==> k in s.workers)
    ensures var t := ActStep(s, k, act);
            k in t.workers && !Remaining(t, k, elders).worker ==>
              t.workers[k].AddFinalizer? || SeenBy(t.workers[k]) == Some(Some(Target(t, k)))
  {
    if act.Call? && !elders.worker {
      var pc, t := s.workers[k], CallStep(s, k, act.reply);
      if act.reply == Ok && Accepts(s, k, pc) {
        var after := Effect(s, k, pc);
        assert t == Goto(after, k, Next(after, k, pc));
        SameTarget(after, t, k);
        SilentNext(s, after, k, pc);
      }
    }
  }

  lemma SilentNext(s: State, after: State, k: Key, pc: Pc)
    requires after == Effect(s, k, pc) && !NeedsListing(pc) && Accepts(s, k, pc) && Still(s, after, k)
    requires WorkerBound(s, k, pc) && Agreed(after, k)
    requires pc.AddFinalizer? || SeenBy(pc) == Some(Some(Target(s, k)))
    ensures var next := Next(after, k, pc); next.Some? ==> SeenBy(next.value) == Some(Some(Target(after, k)))
  {
  }

  lemma SilentPass(s: State, p: nat, act: StatusAct, k: Key, elders: Elders)
    requires StatusEnabled(s, p, act) && Still(s, StatusStep(s, p, act), k) && AllBound(s, k) && Agreed(s, k)
             && YoungSeen(s, k, elders)
    requires Agreed(StatusStep(s, p, act), k)
    ensures var t := StatusStep(s, p, act);
            p in t.passes && t.passes[p].key == k && p !in Remaining(t, k, elders).passes ==>
              t.passes[p].StatusGet? || (t.passes[p].StatusList? && t.passes[p].seen == Some(Target(t, k)))
  {
    assert p in s.passes ==> PassBound(s, k, s.passes[p]);
  }

  // ---------- Other clusters ----------

  /** While pass p lives, it makes no write. */
  predicate WritesNothing(s: State, es: seq<Event>, p: nat)
    decreases |es|
  {
    p in s.passes ==>
      !s.passes[p].StatusPatch? && (es == [] || (Enabled(s, es[0]) && WritesNothing(Step(s, es[0]), es[1..], p)))
  }

  /** A pass begun for a VM on a cluster other than the one the request names
      never comes to write, whatever happens around it. */
  lemma ForeignClusterStops(s: State, p: nat, place: Place, es: seq<Event>, k: Key)
    requires StatusEnabled(s, p, StatusBegin(place)) && s.vms[place].owner == Some(k)
    requires k in s.hub && place.cluster != s.hub[k].spec.region
    requires StillRun(StatusStep(s, p, StatusBegin(place)), es, k)
    ensures WritesNothing(StatusStep(s, p, StatusBegin(place)), es, p)
  {
    StopsAlong(StatusStep(s, p, StatusBegin(place)), p, place.cluster, es, k);
  }

  lemma {:induction false} StopsAlong(s: State, p: nat, cluster: string, es: seq<Event>, k: Key)
    requires k in s.hub && cluster != s.hub[k].spec.region && StillRun(s, es, k)
    requires p in s.passes ==> s.passes[p] == StatusGet(cluster, k)
    ensures WritesNothing(s, es, p)
    decreases |es|
  {
    if es != [] && p in s.passes {
      PassesElsewhere(s, es[0]);
      ForeignStep(s, es[0], p, k);
      StopsAlong(Step(s, es[0]), p, cluster, es[1..], k);
    }
  }

  lemma ForeignStep(s: State, e: Event, p: nat, k: Key)
    requires Enabled(s, e) && k in s.hub && p in s.passes
    requires s.passes[p].StatusGet? && s.passes[p].key == k && s.passes[p].cluster != s.hub[k].spec.region
    ensures var t := Step(s, e); p in t.passes ==> t.passes[p] == s.passes[p]
  {
    PassesElsewhere(s, e);
  }
}
