/** Between Kubernetes objects and the bucket domain: which requests parse, and
    the status written back. It justifies what BucketProtocol takes a valid
    spec and a seen status to be. */
module BucketAdapter {
  import opened Options
  import opened BucketDomain
  import opened Objects
  import BucketProtocol

  const TENANT := "platform.example.com/tenant"
  const BUCKET := "platform.example.com/bucket"
  const FINALIZER := "platform.example.com/bucket-cleanup"

  // ---------- Reading a request ----------

  datatype BucketRequest = BucketRequest(request: Request, bucket: string, maxSize: string, maxObjects: int)

  datatype Parsed = Read(request: BucketRequest) | Failed(error: FieldError) | NameRefused(bucketName: string)

  /** In the order they are checked. */
  const FIELDS := [TextField("region"), TextField("maxSize"), NumberField("maxObjects")]

  function RequestIn(o: Object): BucketRequest {
    BucketRequest(Request(NestedString(o, ["metadata", "name"]), NestedString(o, ["metadata", "namespace"]),
                          NestedString(o, ["spec", "region"]), Objects.Label(Labels(o), TENANT)),
                  Objects.Label(Labels(o), BUCKET), NestedString(o, ["spec", "maxSize"]), NumberAt(o, "maxObjects"))
  }

  function NameIn(o: Object): string { BucketName(RequestIn(o).request.tenant, RequestIn(o).request.name) }

  /** The spec the protocol works with. */
  function SpecOf(o: Object): BucketProtocol.Spec {
    var r := RequestIn(o).request;
    BucketProtocol.Spec(AllSound(o, FIELDS) && CheckBucketName(NameIn(o)), r.region, r.tenant)
  }

  /** The request says what the object says, each field at its own path. */
  predicate Reads(o: Object, r: BucketRequest) {
    && TextReads(o, ["metadata", "name"], r.request.name)
    && TextReads(o, ["metadata", "namespace"], r.request.namespace)
    && LabelReads(o, "platform.example.com/tenant", r.request.tenant)
    && LabelReads(o, "platform.example.com/bucket", r.bucket)
    && TextReads(o, ["spec", "region"], r.request.region) && TextReads(o, ["spec", "maxSize"], r.maxSize)
    && NumberReads(o, "maxObjects", r.maxObjects)
  }

  predicate Complete(o: Object) { TextThere(o, "region") && TextThere(o, "maxSize") && NumberThere(o, "maxObjects") }

  /** The bucket's name: the tenant label, a dash and the object's name. */
  ghost predicate NameReads(o: Object, bucketName: string) {
    exists tenant, name ::
      LabelReads(o, "platform.example.com/tenant", tenant) && TextReads(o, ["metadata", "name"], name) &&
      bucketName == tenant + "-" + name
  }

  lemma FieldsAre(o: Object)
    ensures AllSound(o, FIELDS) <==> Complete(o)
    ensures forall k, error :: FailsFirst(o, FIELDS, k, error) ==>
              Refuses(o, ["region", "maxSize"], ["maxObjects"], error)
  {
    var texts, numbers := ["region", "maxSize"], ["maxObjects"];
    FieldsMean(o, FIELDS, texts, numbers);
    assert texts[0] == "region" && texts[1] == "maxSize" && numbers[0] == "maxObjects";
  }

  lemma RequestReads(o: Object)
    ensures Reads(o, RequestIn(o)) && NameReads(o, NameIn(o))
  {
    TextIsRead(o, ["metadata", "name"]);
    TextIsRead(o, ["metadata", "namespace"]);
    LabelIsRead(o, TENANT);
    LabelIsRead(o, BUCKET);
    TextIsRead(o, ["spec", "region"]);
    TextIsRead(o, ["spec", "maxSize"]);
    NumberIsRead(o, "maxObjects");
    assert NameIn(o) == RequestIn(o).request.tenant + "-" + RequestIn(o).request.name;
  }

  /** The protocol's spec says what the object says. */
  lemma SpecMeans(o: Object)
    ensures var spec := SpecOf(o);
            && LabelReads(o, "platform.example.com/tenant", spec.tenant)
               && TextReads(o, ["spec", "region"], spec.region)
            && (spec.valid <==> Complete(o) && exists name :: NameReads(o, name) && 3 <= |name| <= 63)
  {
    FieldsAre(o);
    RequestReads(o);
    forall name | NameReads(o, name) ensures name == NameIn(o) { NameIsOne(o, name); }
  }

  lemma NameIsOne(o: Object, bucketName: string)
    requires NameReads(o, bucketName)
    ensures bucketName == NameIn(o)
  {
    LabelIsRead(o, TENANT);
    TextIsRead(o, ["metadata", "name"]);
  }

  method RequestFromObject(o: Object) returns (result: Parsed)
    ensures result.Read? ==> Complete(o) && Reads(o, result.request)
    ensures result.Read? ==> 3 <= |result.request.request.tenant + "-" + result.request.request.name| <= 63
    ensures result.Read? ==>
              forall i :: Nested(o, ["spec", "maxObjects"]) == Some(Int(i)) ==> result.request.maxObjects == i
    ensures result.Failed? ==> Refuses(o, ["region", "maxSize"], ["maxObjects"], result.error)
    ensures result.NameRefused? ==>
              Complete(o) && NameReads(o, result.bucketName) && !(3 <= |result.bucketName| <= 63)
    ensures result.Read? <==> SpecOf(o).valid
    ensures result.Read? ==>
              var r, spec := result.request, SpecOf(o);
              r == RequestIn(o) && spec.region == r.request.region && spec.tenant == r.request.tenant
  {
    FieldsAre(o);
    RequestReads(o);
    var tenant, bucket := Objects.Label(Labels(o), TENANT), Objects.Label(Labels(o), BUCKET);
    var r := Request(NestedString(o, ["metadata", "name"]), NestedString(o, ["metadata", "namespace"]), "", tenant);
    var problem := Problem(o, FIELDS[0]);
    if problem.Some? { assert FailsFirst(o, FIELDS, 0, problem.value); return Failed(problem.value); }
    r := r.(region := NestedString(o, ["spec", "region"]));
    problem := Problem(o, FIELDS[1]);
    if problem.Some? { assert FailsFirst(o, FIELDS, 1, problem.value); return Failed(problem.value); }
    problem := Problem(o, FIELDS[2]);
    if problem.Some? { assert FailsFirst(o, FIELDS, 2, problem.value); return Failed(problem.value); }
    if !CheckBucketName(BucketName(r.tenant, r.name)) { return NameRefused(BucketName(r.tenant, r.name)); }
    result := Read(BucketRequest(r, bucket, NestedString(o, ["spec", "maxSize"]), NumberAt(o, "maxObjects")));
  }

  /** Writing a status never changes what is read as the request. */
  lemma RequestKept(o: Object, u: Object)
    requires OnlyRegionsDiffer(o, u)
    ensures RequestIn(u) == RequestIn(o) && (AllSound(u, FIELDS) <==> AllSound(o, FIELDS)) && SpecOf(u) == SpecOf(o)
  {
    OtherFieldsKept(o, u, ["metadata", "name"]);
    OtherFieldsKept(o, u, ["metadata", "namespace"]);
    OtherFieldsKept(o, u, ["metadata", "labels"]);
    OtherFieldsKept(o, u, ["spec", "region"]);
    OtherFieldsKept(o, u, ["spec", "maxSize"]);
    OtherFieldsKept(o, u, ["spec", "maxObjects"]);
    forall k | 0 <= k < |FIELDS| ensures Problem(u, FIELDS[k]) == Problem(o, FIELDS[k]) {
      OtherFieldsKept(o, u, ["spec", FIELDS[k].name]);
    }
  }

  // ---------- The status ----------

  function PhaseText(p: Phase): string {
    match p
    case Pending => "Pending"
    case Ready => "Ready"
    case Unschedulable => "Unschedulable"
  }

  function MessageText(m: Message): string {
    match m
    case NoMessage => ""
    case NoStorage(region) => "region \"" + region + "\" does not offer object storage"
    case MissingTenantLabel => "missing label " + TENANT
  }

  /** A field that is left out when empty. */
  function WithText(entry: Object, key: string, text: string): Object {
    if text != "" then entry[key := Str(text)] else entry
  }

  function Entry(s: Status): Object {
    var entry := map["region" := Str(s.region), "phase" := Str(PhaseText(s.phase))];
    var named := WithText(entry, "bucketName", s.bucketName);
    WithText(WithText(named, "endpoint", s.endpoint), "message", MessageText(s.message))
  }

  function StatusObject(s: Status): Json { Arr([Obj(Entry(s))]) }

  predicate StatusChanged(o: Object, s: Status) { Changed(o, StatusObject(s)) }

  /** A text field reads back, left out or not. */
  lemma EntryReadsBack(s: Status)
    ensures var e := Entry(s);
            && Canon(Obj(e)) == Obj(e)
            && e["region"] == Str(s.region) && e["phase"] == Str(PhaseText(s.phase))
            && NestedString(e, ["bucketName"]) == s.bucketName && NestedString(e, ["endpoint"]) == s.endpoint
            && NestedString(e, ["message"]) == MessageText(s.message)
  {
  }

  /** The phases and messages, letter by letter. */
  lemma TextsMean(region: string)
    ensures PhaseText(Pending) == "Pending" && PhaseText(Ready) == "Ready"
            && PhaseText(Unschedulable) == "Unschedulable"
    ensures MessageText(NoMessage) == ""
    ensures MessageText(NoStorage(region)) == "region \"" + region + "\" does not offer object storage"
    ensures MessageText(MissingTenantLabel) == "missing label platform.example.com/tenant"
  {
    assert "missing label " + TENANT == "missing label platform.example.com/tenant";
  }

  /** What is left out of an entry, and when. */
  lemma KeysOfEntry(s: Status)
    ensures Entry(s).Keys == {"region", "phase"} + (if s.bucketName == "" then {} else {"bucketName"})
                             + (if s.endpoint == "" then {} else {"endpoint"})
                             + if MessageText(s.message) == "" then {} else {"message"}
  {
  }

  lemma MessageStarts(m: Message)
    ensures m.NoMessage? <==> MessageText(m) == ""
    ensures m.NoStorage? ==> MessageText(m)[0] == 'r' && |MessageText(m)| == |m.region| + 39
    ensures m.MissingTenantLabel? ==> MessageText(m)[0] == 'm'
  {
  }

  lemma MessagesDiffer(m: Message, n: Message)
    requires MessageText(m) == MessageText(n)
    ensures m == n
  {
    MessageStarts(m);
    MessageStarts(n);
    if m.NoStorage? && n.NoStorage? {
      assert MessageText(m)[8..8 + |m.region|] == m.region && MessageText(n)[8..8 + |n.region|] == n.region;
    }
  }

  lemma SameText(s: Status, t: Status)
    requires Canon(StatusObject(s)) == Canon(StatusObject(t))
    ensures s == t
  {
    EntryReadsBack(s);
    EntryReadsBack(t);
    assert Canon(StatusObject(s)).items[0] == Obj(Entry(s)) && Canon(StatusObject(t)).items[0] == Obj(Entry(t));
    MessagesDiffer(s.message, t.message);
  }

  lemma RendersFaithfully()
    ensures Faithful(StatusObject)
  {
    forall s: Status, t: Status | Canon(StatusObject(s)) == Canon(StatusObject(t)) ensures s == t { SameText(s, t); }
  }

  /** The object as the protocol sees it. */
  ghost function HubObjectOf(o: Object): BucketProtocol.HubObject {
    BucketProtocol.HubObject(SpecOf(o), Marked(o), HasFinalizer(o, FINALIZER), Seen(StatusObject, o))
  }

  /** Its deletion, its finalizer and the status it shows. */
  lemma HubObjectMeans(o: Object, s: Status)
    ensures HubObjectOf(o).spec == SpecOf(o)
    ensures HubObjectOf(o).marked <==>
            exists j :: j != Null && Nested(o, ["metadata", "deletionTimestamp"]) == Some(j)
    ensures HubObjectOf(o).finalizer <==>
            exists items :: Str("platform.example.com/bucket-cleanup") in items &&
                            Nested(o, ["metadata", "finalizers"]) == Some(Arr(items))
    ensures Nested(o, ["status", "regions"]) == Some(Arr([Obj(Entry(s))])) ==> HubObjectOf(o).status == Some(s)
  {
    if Nested(o, ["status", "regions"]) == Some(Arr([Obj(Entry(s))])) { ChangedMeans(o, s); }
  }

  /** StatusChanged is the comparison the protocol makes, whatever the object shows. */
  lemma ChangedMeans(o: Object, s: Status)
    ensures StatusChanged(o, s) <==> HubObjectOf(o).status != Some(s)
  {
    RendersFaithfully();
    Objects.ChangedMeans(StatusObject, o, s);
  }

  /** SetStatus writes the protocol's status and nothing else the protocol sees. */
  method SetStatus(obj: Unstructured, s: Status)
    modifies obj
    ensures OnlyRegionsDiffer(old(obj.content), obj.content)
    ensures HubObjectOf(obj.content) == HubObjectOf(old(obj.content)).(status := Some(s))
    ensures RequestIn(obj.content) == RequestIn(old(obj.content))
    ensures Nested(obj.content, ["status", "regions"]) == Some(Arr([Obj(Entry(s))]))
  {
    obj.SetRegions(StatusObject(s));
    NestedMeans(obj.content, "status", "regions");
    RequestKept(old(obj.content), obj.content);
    DeletionKept(old(obj.content), obj.content, FINALIZER);
    ChangedMeans(obj.content, s);
  }

  // ---------- The claim ----------

  /** ClaimOf: a missing claim is the empty one, a missing ConfigMap shows no endpoint. */
  function ClaimOf(obc: Option<Object>, config: Option<map<string, string>>): Claim {
    Claim(if obc.Some? then NestedString(obc.value, ["status", "phase"]) else "",
          if config.Some? then Objects.Label(config.value, "BUCKET_HOST") else "",
          if config.Some? then Objects.Label(config.value, "BUCKET_PORT") else "")
  }

  /** The spoke makes a request Ready exactly when its claim is Bound and the
      ConfigMap names a host; then the endpoint is that host, with the port if there is one. */
  lemma ReadyMeans(r: Request, obc: Option<Object>, config: Option<map<string, string>>)
    ensures var s := StatusOf(r, ClaimOf(obc, config));
            && (s.phase == Ready <==> obc.Some? && Nested(obc.value, ["status", "phase"]) == Some(Str("Bound")) &&
                                      config.Some? && "BUCKET_HOST" in config.value
                                          && config.value["BUCKET_HOST"] != "")
            && (s.phase == Ready ==>
                  var host := config.value["BUCKET_HOST"];
                  var port := if "BUCKET_PORT" in config.value then config.value["BUCKET_PORT"] else "";
                  s.endpoint == "http://" + host + if port == "" then "" else ":" + port)
            && (s.phase != Ready ==> s.phase == Pending && s.endpoint == "")
  {
    var c := ClaimOf(obc, config);
    assert "http://" + c.host + "" == "http://" + c.host;
    assert "http://" + c.host + (":" + c.port) == "http://" + c.host + ":" + c.port;
  }
}
