/** Between Kubernetes objects and the VM domain: parsing a request, owner
    labels, and the status written back. It justifies what VmProtocol takes a
    spec, an owner and a seen status to be. */
module VmAdapter {
  import opened Options
  import opened VmDomain
  import opened Objects
  import VmProtocol

  const TENANT := "platform.example.com/tenant"
  const VM_SET := "platform.example.com/vmset"
  const REQUEST := "platform.example.com/vmset-request"
  const REQUEST_NAMESPACE := "platform.example.com/vmset-request-namespace"

  const FINALIZER := "platform.example.com/vm-cleanup"

  // ---------- Reading a request ----------

  datatype VmRequest = VmRequest(name: string, namespace: string, tenant: string, vmSet: string, region: string,
                                 memory: string, image: string, cloudInitSecret: string, replicas: int, cpu: int)

  datatype Parsed = Read(request: VmRequest) | Failed(error: FieldError)

  /** In the order they are checked. */
  const FIELDS := [TextField("region"), TextField("memory"), TextField("image"), TextField("cloudInitSecretName"),
                   NumberField("replicas"), NumberField("cpu")]

  function RequestIn(o: Object): VmRequest {
    VmRequest(NestedString(o, ["metadata", "name"]), NestedString(o, ["metadata", "namespace"]),
              Label(Labels(o), TENANT), Label(Labels(o), VM_SET),
              NestedString(o, ["spec", "region"]), NestedString(o, ["spec", "memory"]),
              NestedString(o, ["spec", "image"]),
              NestedString(o, ["spec", "cloudInitSecretName"]), NumberAt(o, "replicas"), NumberAt(o, "cpu"))
  }

  /** The spec the protocol works with. A replica count below zero, which the CRD refuses, reads as none. */
  function SpecOf(o: Object): VmProtocol.Spec {
    var r := RequestIn(o);
    var replicas := if r.replicas >= 0 then r.replicas else 0;
    VmProtocol.Spec(AllSound(o, FIELDS), r.region, r.tenant, replicas, r.cloudInitSecret)
  }

  /** The request says what the object says, each field at its own path. */
  predicate Reads(o: Object, r: VmRequest) {
    && TextReads(o, ["metadata", "name"], r.name) && TextReads(o, ["metadata", "namespace"], r.namespace)
    && LabelReads(o, "platform.example.com/tenant", r.tenant) && LabelReads(o, "platform.example.com/vmset", r.vmSet)
    && TextReads(o, ["spec", "region"], r.region) && TextReads(o, ["spec", "memory"], r.memory)
    && TextReads(o, ["spec", "image"], r.image) && TextReads(o, ["spec", "cloudInitSecretName"], r.cloudInitSecret)
    && NumberReads(o, "replicas", r.replicas) && NumberReads(o, "cpu", r.cpu)
  }

  /** All six required fields are there: texts that are not empty, and numbers. */
  predicate Complete(o: Object) {
    && TextThere(o, "region") && TextThere(o, "memory") && TextThere(o, "image") && TextThere(o, "cloudInitSecretName")
    && NumberThere(o, "replicas") && NumberThere(o, "cpu")
  }

  lemma FieldsAre(o: Object)
    ensures AllSound(o, FIELDS) <==> Complete(o)
    ensures forall k, error :: FailsFirst(o, FIELDS, k, error) ==>
              Refuses(o, ["region", "memory", "image", "cloudInitSecretName"], ["replicas", "cpu"], error)
  {
    var texts, numbers := ["region", "memory", "image", "cloudInitSecretName"], ["replicas", "cpu"];
    FieldsMean(o, FIELDS, texts, numbers);
    assert texts[0] == "region" && texts[1] == "memory" && texts[2] == "image" && texts[3] == "cloudInitSecretName";
    assert numbers[0] == "replicas" && numbers[1] == "cpu";
  }

  lemma RequestReads(o: Object)
    ensures Reads(o, RequestIn(o))
  {
    TextIsRead(o, ["metadata", "name"]);
    TextIsRead(o, ["metadata", "namespace"]);
    LabelIsRead(o, TENANT);
    LabelIsRead(o, VM_SET);
    TextIsRead(o, ["spec", "region"]);
    TextIsRead(o, ["spec", "memory"]);
    TextIsRead(o, ["spec", "image"]);
    TextIsRead(o, ["spec", "cloudInitSecretName"]);
    NumberIsRead(o, "replicas");
    NumberIsRead(o, "cpu");
  }

  /** The protocol's spec says what the object says. */
  lemma SpecMeans(o: Object)
    ensures var spec := SpecOf(o);
            && (spec.valid <==> Complete(o))
            && LabelReads(o, "platform.example.com/tenant", spec.tenant)
               && TextReads(o, ["spec", "region"], spec.region)
            && TextReads(o, ["spec", "cloudInitSecretName"], spec.secretName)
            && (NumberReads(o, "replicas", spec.replicas) || (spec.replicas == 0 && NumberBelow(o, "replicas")))
  {
    FieldsAre(o);
    RequestReads(o);
  }

  predicate NumberBelow(o: Object, field: string) {
    match Nested(o, ["spec", field])
    case Some(Int(i)) => i < 0
    case Some(Float(x)) => x < 0.0
    case _ => false
  }

  method RequestFromObject(o: Object) returns (result: Parsed)
    ensures result.Read? <==> Complete(o)
    ensures result.Read? ==> Reads(o, result.request)
    ensures result.Read? ==> forall i :: Nested(o, ["spec", "replicas"]) == Some(Int(i)) ==>
            result.request.replicas == i
    ensures result.Read? ==> forall i :: Nested(o, ["spec", "cpu"]) == Some(Int(i)) ==> result.request.cpu == i
    ensures result.Failed? ==>
              Refuses(o, ["region", "memory", "image", "cloudInitSecretName"], ["replicas", "cpu"], result.error)
    ensures result.Read? <==> SpecOf(o).valid
    ensures result.Read? ==>
              var r, spec := result.request, SpecOf(o);
              && r == RequestIn(o) && spec.region == r.region && spec.tenant == r.tenant
              && spec.secretName == r.cloudInitSecret && spec.replicas == if r.replicas >= 0 then r.replicas else 0
  {
    FieldsAre(o);
    RequestReads(o);
    var labels := Labels(o);
    result := ReadTexts(o, VmRequest(NestedString(o, ["metadata", "name"]), NestedString(o, ["metadata", "namespace"]),
                                     Label(labels, TENANT), Label(labels, VM_SET), "", "", "", "", 0, 0));
    if !result.Read? { return; }
    var r := result.request;
    var problem := Problem(o, FIELDS[4]);
    if problem.Some? { assert FailsFirst(o, FIELDS, 4, problem.value); return Failed(problem.value); }
    r := r.(replicas := NumberAt(o, "replicas"));
    problem := Problem(o, FIELDS[5]);
    if problem.Some? { assert FailsFirst(o, FIELDS, 5, problem.value); return Failed(problem.value); }
    result := Read(r.(cpu := NumberAt(o, "cpu")));
  }

  /** The four text fields. */
  method ReadTexts(o: Object, blank: VmRequest) returns (result: Parsed)
    ensures result.Read? <==> forall k :: 0 <= k < 4 ==> Problem(o, FIELDS[k]) == None
    ensures result.Read? ==>
              result.request == blank.(region := NestedString(o, ["spec", "region"]),
                                       memory := NestedString(o, ["spec", "memory"]),
                                       image := NestedString(o, ["spec", "image"]),
                                       cloudInitSecret := NestedString(o, ["spec", "cloudInitSecretName"]))
    ensures result.Failed? ==> exists k :: FailsFirst(o, FIELDS, k, result.error)
  {
    var r := blank;
    var problem := Problem(o, FIELDS[0]);
    if problem.Some? { assert FailsFirst(o, FIELDS, 0, problem.value); return Failed(problem.value); }
    r := r.(region := NestedString(o, ["spec", "region"]));
    problem := Problem(o, FIELDS[1]);
    if problem.Some? { assert FailsFirst(o, FIELDS, 1, problem.value); return Failed(problem.value); }
    r := r.(memory := NestedString(o, ["spec", "memory"]));
    problem := Problem(o, FIELDS[2]);
    if problem.Some? { assert FailsFirst(o, FIELDS, 2, problem.value); return Failed(problem.value); }
    r := r.(image := NestedString(o, ["spec", "image"]));
    problem := Problem(o, FIELDS[3]);
    if problem.Some? { assert FailsFirst(o, FIELDS, 3, problem.value); return Failed(problem.value); }
    result := Read(r.(cloudInitSecret := NestedString(o, ["spec", "cloudInitSecretName"])));
  }

  /** Writing a status never changes what is read as the request. */
  lemma RequestKept(o: Object, u: Object)
    requires OnlyRegionsDiffer(o, u)
    ensures RequestIn(u) == RequestIn(o) && (AllSound(u, FIELDS) <==> AllSound(o, FIELDS)) && SpecOf(u) == SpecOf(o)
  {
    OtherFieldsKept(o, u, ["metadata", "name"]);
    OtherFieldsKept(o, u, ["metadata", "namespace"]);
    OtherFieldsKept(o, u, ["metadata", "labels"]);
    OtherFieldsKept(o, u, ["spec", "region"]);
    OtherFieldsKept(o, u, ["spec", "memory"]);
    OtherFieldsKept(o, u, ["spec", "image"]);
    OtherFieldsKept(o, u, ["spec", "cloudInitSecretName"]);
    OtherFieldsKept(o, u, ["spec", "replicas"]);
    OtherFieldsKept(o, u, ["spec", "cpu"]);
    forall k | 0 <= k < |FIELDS| ensures Problem(u, FIELDS[k]) == Problem(o, FIELDS[k]) {
      OtherFieldsKept(o, u, ["spec", FIELDS[k].name]);
    }
  }

  // ---------- Owners ----------

  function OwnerLabels(name: string, namespace: string): map<string, string> {
    map[REQUEST := name, REQUEST_NAMESPACE := namespace]
  }

  function ObjectLabels(r: VmRequest): map<string, string> {
    OwnerLabels(r.name, r.namespace)[TENANT := r.tenant][VM_SET := r.vmSet]
  }

  function RequestKey(labels: map<string, string>): Option<VmProtocol.Key> {
    var name, namespace := Label(labels, REQUEST), Label(labels, REQUEST_NAMESPACE);
    if name == "" || namespace == "" then None else Some(VmProtocol.Key(namespace, name))
  }

  /** client.MatchingLabels. */
  predicate Selects(selector: map<string, string>, labels: map<string, string>) {
    forall k :: k in selector ==> k in labels && labels[k] == selector[k]
  }

  /** Listing by owner labels finds exactly the objects RequestKey leads back
      from, and what a request renders is found by that request and no other. */
  lemma OwnerIdentified(labels: map<string, string>, name: string, namespace: string)
    requires name != "" && namespace != ""
    ensures Selects(OwnerLabels(name, namespace), labels)
            <==> RequestKey(labels) == Some(VmProtocol.Key(namespace, name))
    ensures forall r: VmRequest ::
              Selects(OwnerLabels(name, namespace), ObjectLabels(r)) <==> r.name == name && r.namespace == namespace
    ensures OwnerLabels(name, namespace) == map["platform.example.com/vmset-request" := name,
                                                "platform.example.com/vmset-request-namespace" := namespace]
  {
    if RequestKey(labels) == Some(VmProtocol.Key(namespace, name)) {
      assert REQUEST in labels && REQUEST_NAMESPACE in labels;
    }
    if Selects(OwnerLabels(name, namespace), labels) {
      assert REQUEST in OwnerLabels(name, namespace) && REQUEST_NAMESPACE in OwnerLabels(name, namespace);
    }
    forall r: VmRequest
      ensures Selects(OwnerLabels(name, namespace), ObjectLabels(r)) <==> r.name == name && r.namespace == namespace
    {
      assert REQUEST in OwnerLabels(name, namespace) && REQUEST_NAMESPACE in OwnerLabels(name, namespace);
    }
  }

  /** The key two labels lead back to, and what a request's objects are labelled with. */
  lemma LabelsMean(labels: map<string, string>, r: VmRequest)
    ensures forall name, namespace :: RequestKey(labels) == Some(VmProtocol.Key(namespace, name)) <==>
              && name != "" && "platform.example.com/vmset-request" in labels
              && labels["platform.example.com/vmset-request"] == name
              && namespace != "" && "platform.example.com/vmset-request-namespace" in labels
              && labels["platform.example.com/vmset-request-namespace"] == namespace
    ensures ObjectLabels(r) == map["platform.example.com/vmset-request" := r.name,
                                   "platform.example.com/vmset-request-namespace" := r.namespace,
                                   "platform.example.com/tenant" := r.tenant, "platform.example.com/vmset" := r.vmSet]
  {
  }

  // ---------- Listed VMs ----------

  predicate IsReady(vm: Object) { Nested(vm, ["status", "ready"]) == Some(Bool(true)) }

  method VMStates(vms: seq<Object>) returns (all: seq<string>, ready: seq<string>)
    ensures |all| == |vms| && forall i :: 0 <= i < |vms| ==> all[i] == NestedString(vms[i], ["metadata", "name"])
    ensures forall x :: x in ready <==>
              exists i :: 0 <= i < |vms| && Nested(vms[i], ["status", "ready"]) == Some(Bool(true)) && all[i] == x
  {
    all, ready := [], [];
    for n := 0 to |vms|
      invariant |all| == n && forall i :: 0 <= i < n ==> all[i] == NestedString(vms[i], ["metadata", "name"])
      invariant forall x :: x in ready <==> exists i :: 0 <= i < n && IsReady(vms[i]) && all[i] == x
    {
      ghost var before := ready;
      all := all + [NestedString(vms[n], ["metadata", "name"])];
      if IsReady(vms[n]) { ready := ready + [NestedString(vms[n], ["metadata", "name"])]; }
      forall x ensures x in ready <==> exists i :: 0 <= i < n + 1 && IsReady(vms[i]) && all[i] == x {
        if x in ready && x !in before { assert IsReady(vms[n]) && all[n] == x; }
      }
    }
  }

  // ---------- The status ----------

  function PhaseText(p: Phase): string {
    match p
    case Pending => "Pending"
    case Ready => "Ready"
    case Unschedulable => "Unschedulable"
  }

  function MessageText(m: Message): string {
    match m
    case NoMessage => ""
    case NoVms(region) => "region \"" + region + "\" does not offer VMs"
    case MissingTenantLabel => "missing label " + TENANT
  }

  function Entry(s: Status): Object {
    var entry := map["region" := Str(s.region), "phase" := Str(PhaseText(s.phase)),
                     "readyReplicas" := Int(s.readyReplicas)];
    var text := MessageText(s.message);
    if text != "" then entry["message" := Str(text)] else entry
  }

  /** What a status looks like on the object. */
  lemma EntryMeans(s: Status)
    ensures var e := Entry(s);
            && e.Keys == {"region", "phase", "readyReplicas"} + (if MessageText(s.message) == "" then {}
               else {"message"})
            && e["region"] == Str(s.region) && e["readyReplicas"] == Int(s.readyReplicas)
            && e["phase"] == Str(PhaseText(s.phase))
            && (MessageText(s.message) != "" ==> e["message"] == Str(MessageText(s.message)))
  {
  }

  /** The phases and messages, letter by letter. */
  lemma TextsMean(region: string)
    ensures PhaseText(Pending) == "Pending" && PhaseText(Ready) == "Ready"
            && PhaseText(Unschedulable) == "Unschedulable"
    ensures MessageText(NoMessage) == ""
    ensures MessageText(NoVms(region)) == "region \"" + region + "\" does not offer VMs"
    ensures MessageText(MissingTenantLabel) == "missing label platform.example.com/tenant"
  {
    assert "missing label " + TENANT == "missing label platform.example.com/tenant";
  }

  function StatusObject(s: Status): Json { Arr([Obj(Entry(s))]) }

  predicate StatusChanged(o: Object, s: Status) { Changed(o, StatusObject(s)) }

  lemma MessagesDiffer(m: Message, n: Message)
    requires MessageText(m) == MessageText(n)
    ensures m == n
  {
    MessageStarts(m);
    MessageStarts(n);
    if m.NoVms? && n.NoVms? {
      assert MessageText(m)[8..8 + |m.region|] == m.region && MessageText(n)[8..8 + |n.region|] == n.region;
    }
  }

  lemma MessageStarts(m: Message)
    ensures m.NoMessage? <==> MessageText(m) == ""
    ensures m.NoVms? ==> MessageText(m)[0] == 'r' && |MessageText(m)| == |m.region| + 28
    ensures m.MissingTenantLabel? ==> MessageText(m)[0] == 'm'
  {
  }

  lemma SameText(s: Status, t: Status)
    requires Canon(StatusObject(s)) == Canon(StatusObject(t))
    ensures s == t
  {
    var a, b := Entry(s), Entry(t);
    CanonOfEntry(s);
    CanonOfEntry(t);
    assert Canon(StatusObject(s)).items[0] == Obj(a) && Canon(StatusObject(t)).items[0] == Obj(b);
    assert a["region"] == b["region"] && a["phase"] == b["phase"] && a["readyReplicas"] == b["readyReplicas"];
    assert "message" in a <==> "message" in b;
    assert MessageText(s.message) == MessageText(t.message);
    MessagesDiffer(s.message, t.message);
  }

  lemma CanonOfEntry(s: Status)
    ensures Canon(Obj(Entry(s))) == Obj(Entry(s))
  {
  }

  lemma RendersFaithfully()
    ensures Faithful(StatusObject)
  {
    forall s: Status, t: Status | Canon(StatusObject(s)) == Canon(StatusObject(t)) ensures s == t { SameText(s, t); }
  }

  /** The object as the protocol sees it. */
  ghost function HubObjectOf(o: Object): VmProtocol.HubObject {
    VmProtocol.HubObject(SpecOf(o), Marked(o), HasFinalizer(o, FINALIZER), Seen(StatusObject, o))
  }

  /** Its deletion, its finalizer and the status it shows. */
  lemma HubObjectMeans(o: Object, s: Status)
    ensures HubObjectOf(o).spec == SpecOf(o)
    ensures HubObjectOf(o).marked <==>
            exists j :: j != Null && Nested(o, ["metadata", "deletionTimestamp"]) == Some(j)
    ensures HubObjectOf(o).finalizer <==>
            exists items :: Str("platform.example.com/vm-cleanup") in items &&
                            Nested(o, ["metadata", "finalizers"]) == Some(Arr(items))
    ensures Nested(o, ["status", "regions"]) == Some(Arr([Obj(Entry(s))])) ==> HubObjectOf(o).status == Some(s)
  {
    if Nested(o, ["status", "regions"]) == Some(Arr([Obj(Entry(s))])) { ChangedMeans(o, s); }
  }

  /** StatusChanged is the comparison the protocol makes, whatever the object
      shows: no write is wasted and none is skipped. */
  lemma ChangedMeans(o: Object, s: Status)
    ensures StatusChanged(o, s) <==> HubObjectOf(o).status != Some(s)
  {
    RendersFaithfully();
    Objects.ChangedMeans(StatusObject, o, s);
  }

  /** A count decoded as a float is no change. */
  lemma FloatsAreNoChange(o: Object, s: Status)
    requires Regions(o) == Arr([Obj(Entry(s)["readyReplicas" := Float(s.readyReplicas as real)])])
    ensures HubObjectOf(o).status == Some(s) && !StatusChanged(o, s)
  {
    var e := Entry(s)["readyReplicas" := Float(s.readyReplicas as real)];
    assert Canon(Obj(e)) == Canon(Obj(Entry(s)));
    ChangedMeans(o, s);
  }

  /** SetStatus writes the protocol's status and nothing else the protocol sees. */
  method SetStatus(obj: Unstructured, s: Status)
    modifies obj
    ensures OnlyRegionsDiffer(old(obj.content), obj.content)
    ensures HubObjectOf(obj.content) == HubObjectOf(old(obj.content)).(status := Some(s))
    ensures RequestIn(obj.content) == RequestIn(old(obj.content))
    ensures Nested(obj.content, ["status", "regions"]) == Some(Arr([Obj(Entry(s))]))
  {
    obj.SetRegions(StatusObject(s));
    NestedMeans(obj.content, "status", "regions");
    RequestKept(old(obj.content), obj.content);
    DeletionKept(old(obj.content), obj.content, FINALIZER);
    ChangedMeans(obj.content, s);
  }
}
