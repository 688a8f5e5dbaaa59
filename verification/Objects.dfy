/** Unstructured Kubernetes objects: decoded JSON, nested lookups, and the
    status.regions field both request kinds report in. */
module Objects {
  import opened Options

  datatype Json = Null | Bool(b: bool) | Int(i: int) | Float(f: real) | Str(s: string) | Arr(items: seq<Json>)
      | Obj(fields: Object)

  type Object = map<string, Json>

  /** A lookup along a path. Missing, and blocked by something that is no object, come to the same for every caller. */
  function Nested(o: Object, path: seq<string>): Option<Json>
    requires path != []
    decreases |path|
  {
    if path[0] !in o then None
    else if |path| == 1 then Some(o[path[0]])
    else if o[path[0]].Obj? then Nested(o[path[0]].fields, path[1..])
    else None
  }

  function NestedString(o: Object, path: seq<string>): string
    requires path != []
  {
    match Nested(o, path)
    case Some(Str(s)) => s
    case _ => ""
  }

  /** GetLabels: no labels at all if any of them is not a string. */
  function Labels(o: Object): map<string, string> {
    match Nested(o, ["metadata", "labels"])
    case Some(Obj(fields)) =>
      if forall k :: k in fields ==> fields[k].Str? then map k | k in fields :: fields[k].s else map[]
    case _ => map[]
  }

  function Label(labels: map<string, string>, key: string): string { if key in labels then labels[key] else "" }

  /** Lookups along the paths the controllers use, in plain terms. */
  lemma NestedMeans(o: Object, a: string, b: string)
    ensures Nested(o, [a]) == if a in o then Some(o[a]) else None
    ensures Nested(o, [a, b])
            == if a in o && o[a].Obj? && b in o[a].fields then Some(o[a].fields[b]) else None
  {
    assert [a, b][1..] == [b];
  }

  /** s is the text at the path, "" if there is none. */
  predicate TextReads(o: Object, path: seq<string>, s: string)
    requires path != []
  {
    var v := Nested(o, path);
    if v.Some? && v.value.Str? then v == Some(Str(s)) else s == ""
  }

  /** value is the label's, "" if there is none; one label that is no string spoils them all. */
  predicate LabelReads(o: Object, key: string, value: string) {
    match Nested(o, ["metadata", "labels"])
    case Some(Obj(fields)) =>
      if key in fields && forall k :: k in fields ==> fields[k].Str? then fields[key] == Str(value) else value == ""
    case _ => value == ""
  }

  lemma TextIsRead(o: Object, path: seq<string>)
    requires path != []
    ensures TextReads(o, path, NestedString(o, path))
  {
  }

  lemma LabelIsRead(o: Object, key: string)
    ensures LabelReads(o, key, Label(Labels(o), key))
  {
  }

  // ---------- Required spec fields ----------

  datatype Field = TextField(name: string) | NumberField(name: string)

  datatype FieldError = Required(field: string) | NotInteger(field: string)

  /** Go's int(f): toward zero. */
  function Truncate(f: real): int { if f >= 0.0 then f.Floor else -(-f).Floor }

  function NumberIn(j: Json): Option<int> {
    match j
    case Int(i) => Some(i)
    case Float(f) => Some(Truncate(f))
    case _ => None
  }

  function NumberAt(o: Object, name: string): int {
    var v := Nested(o, ["spec", name]);
    if v.Some? && NumberIn(v.value).Some? then NumberIn(v.value).value else 0
  }

  /** What is wrong with a field, if anything. */
  function Problem(o: Object, f: Field): Option<FieldError> {
    var v := Nested(o, ["spec", f.name]);
    match f
    case TextField(name) => if v.Some? && v.value.Str? && v.value.s != "" then None else Some(Required(name))
    case NumberField(name) =>
      if v.None? then Some(Required(name)) else if NumberIn(v.value).None? then Some(NotInteger(name)) else None
  }

  predicate TextThere(o: Object, field: string) {
    var v := Nested(o, ["spec", field]);
    v.Some? && v.value.Str? && v.value.s != ""
  }

  predicate NumberThere(o: Object, field: string) {
    var v := Nested(o, ["spec", field]);
    v.Some? && (v.value.Int? || v.value.Float?)
  }

  /** n is the spec's number: an integer as it stands, anything else toward zero, 0 without a number. */
  predicate NumberReads(o: Object, field: string, n: int) {
    match Nested(o, ["spec", field])
    case Some(Int(i)) => n == i
    case Some(Float(x)) =>
      if x >= 0.0 then n as real <= x < n as real + 1.0 else n as real - 1.0 < x <= n as real
    case _ => n == 0
  }

  lemma NumberIsRead(o: Object, field: string)
    ensures NumberReads(o, field, NumberAt(o, field))
  {
  }

  /** The error is the one for the first field in trouble: a text or a number
      that is missing, or something else in a number's place. */
  predicate Refuses(o: Object, texts: seq<string>, numbers: seq<string>, error: FieldError) {
    || (exists k :: 0 <= k < |texts| && error == Required(texts[k]) && !TextThere(o, texts[k]) &&
                    forall j :: 0 <= j < k ==> TextThere(o, texts[j]))
    || ((forall j :: 0 <= j < |texts| ==> TextThere(o, texts[j])) &&
        exists k :: 0 <= k < |numbers| && !NumberThere(o, numbers[k]) &&
                    error == (if Nested(o, ["spec", numbers[k]]) == None then Required(numbers[k])
                              else NotInteger(numbers[k])) &&
                    forall j :: 0 <= j < k ==> NumberThere(o, numbers[j]))
  }

  lemma ProblemMeans(o: Object, f: Field)
    ensures Problem(o, f) == None <==> if f.TextField? then TextThere(o, f.name) else NumberThere(o, f.name)
    ensures Problem(o, f).Some? ==>
              Problem(o, f).value == if f.TextField? || Nested(o, ["spec", f.name]) == None
                                     then Required(f.name) else NotInteger(f.name)
  {
  }

  predicate AllSound(o: Object, fields: seq<Field>) { forall k :: 0 <= k < |fields| ==> Problem(o, fields[k]) == None }

  /** Field k is the first in trouble. */
  predicate FailsFirst(o: Object, fields: seq<Field>, k: nat, error: FieldError) {
    k < |fields| && AllSound(o, fields[..k]) && Problem(o, fields[k]) == Some(error)
  }

  /** A list of text fields followed by number fields: what it means that all
      are sound, and that one fails first. */
  lemma FieldsMean(o: Object, fields: seq<Field>, texts: seq<string>, numbers: seq<string>)
    requires |fields| == |texts| + |numbers|
    requires forall k :: 0 <= k < |texts| ==> fields[k] == TextField(texts[k])
    requires forall k :: 0 <= k < |numbers| ==> fields[|texts| + k] == NumberField(numbers[k])
    ensures AllSound(o, fields) <==> (forall k :: 0 <= k < |texts| ==> TextThere(o, texts[k])) &&
                                     (forall k :: 0 <= k < |numbers| ==> NumberThere(o, numbers[k]))
    ensures forall k, error :: FailsFirst(o, fields, k, error) ==> Refuses(o, texts, numbers, error)
  {
    forall k | 0 <= k < |fields|
      ensures Problem(o, fields[k]) == None
              <==> if k < |texts| then TextThere(o, texts[k]) else NumberThere(o, numbers[k - |texts|])
    {
      ProblemMeans(o, fields[k]);
      if k >= |texts| { assert fields[|texts| + (k - |texts|)] == NumberField(numbers[k - |texts|]); }
    }
    SoundMeans(o, fields, texts, numbers);
    forall k: nat, error | FailsFirst(o, fields, k, error) ensures Refuses(o, texts, numbers, error) {
      ProblemMeans(o, fields[k]);
      forall j | 0 <= j < k ensures Problem(o, fields[j]) == None { assert fields[..k][j] == fields[j]; }
      if k >= |texts| {
        var n := k - |texts|;
        assert fields[|texts| + n] == NumberField(numbers[n]);
        forall j | 0 <= j < |texts| ensures TextThere(o, texts[j]) { assert Problem(o, fields[j]) == None; }
        forall j | 0 <= j < n ensures NumberThere(o, numbers[j]) { assert Problem(o, fields[|texts| + j]) == None; }
      } else {
        forall j | 0 <= j < k ensures TextThere(o, texts[j]) { assert Problem(o, fields[j]) == None; }
      }
    }
  }

  lemma SoundMeans(o: Object, fields: seq<Field>, texts: seq<string>, numbers: seq<string>)
    requires |fields| == |texts| + |numbers|
    requires forall k :: 0 <= k < |fields| ==>
               (Problem(o, fields[k]) == None
                <==> if k < |texts| then TextThere(o, texts[k]) else NumberThere(o, numbers[k - |texts|]))
    ensures AllSound(o, fields) <==> (forall k :: 0 <= k < |texts| ==> TextThere(o, texts[k])) &&
                                     (forall k :: 0 <= k < |numbers| ==> NumberThere(o, numbers[k]))
  {
    if AllSound(o, fields) {
      forall k | 0 <= k < |texts| ensures TextThere(o, texts[k]) { assert Problem(o, fields[k]) == None; }
      forall k | 0 <= k < |numbers| ensures NumberThere(o, numbers[k]) {
        assert Problem(o, fields[|texts| + k]) == None;
      }
    }
  }

  // ---------- status.regions ----------

  /** What a value's JSON text says: 3 and 3.0 are the same text. */
  function Canon(j: Json): Json {
    match j
    case Float(f) => if f == f.Floor as real then Int(f.Floor) else j
    case Arr(items) => Arr(seq(|items|, i requires 0 <= i < |items| => Canon(items[i])))
    case Obj(fields) => Obj(map k | k in fields :: Canon(fields[k]))
    case _ => j
  }

  /** status.regions, null where there is none. */
  function Regions(o: Object): Json {
    match Nested(o, ["status", "regions"])
    case Some(j) => j
    case None => Null
  }

  lemma RegionsMean(o: Object)
    ensures Regions(o) == if "status" in o && o["status"].Obj? && "regions" in o["status"].fields
                          then o["status"].fields["regions"] else Null
  {
    NestedMeans(o, "status", "regions");
  }

  /** StatusChanged, for a status as it would be rendered. */
  predicate Changed(o: Object, rendered: Json) { Canon(Regions(o)) != Canon(rendered) }

  /** The status an object shows, if what it shows is the rendering of one. */
  ghost function Seen<S(!new)>(render: S -> Json, o: Object): Option<S> {
    if exists s :: !Changed(o, render(s)) then
      var s :| !Changed(o, render(s));
      Some(s)
    else None
  }

  /** Different statuses have different texts. */
  ghost predicate Faithful<S(!new)>(render: S -> Json) {
    forall s, t :: Canon(render(s)) == Canon(render(t)) ==> s == t
  }

  /** Comparing texts is comparing statuses, whatever the object shows. */
  lemma ChangedMeans<S(!new)>(render: S -> Json, o: Object, s: S)
    requires Faithful(render)
    ensures Changed(o, render(s)) <==> Seen(render, o) != Some(s)
  {
    if !Changed(o, render(s)) {
      var t := Seen(render, o).value;
      assert Canon(render(t)) == Canon(render(s));
    }
  }

  // ---------- Deletion ----------

  predicate Marked(o: Object) {
    match Nested(o, ["metadata", "deletionTimestamp"])
    case Some(j) => j != Null
    case None => false
  }

  predicate HasFinalizer(o: Object, finalizer: string) {
    match Nested(o, ["metadata", "finalizers"])
    case Some(Arr(items)) => Str(finalizer) in items
    case _ => false
  }

  lemma DeletionKept(o: Object, u: Object, finalizer: string)
    requires OnlyRegionsDiffer(o, u)
    ensures Marked(u) == Marked(o) && HasFinalizer(u, finalizer) == HasFinalizer(o, finalizer)
  {
    OtherFieldsKept(o, u, ["metadata", "deletionTimestamp"]);
    OtherFieldsKept(o, u, ["metadata", "finalizers"]);
  }

  // ---------- Changes in place ----------

  function StatusFields(o: Object): Object { if "status" in o && o["status"].Obj? then o["status"].fields else map[] }

  /** Only the status changes, and of it only the regions. */
  predicate OnlyRegionsDiffer(o: Object, u: Object) {
    && o - {"status"} == u - {"status"}
    && StatusFields(o) - {"regions"} == StatusFields(u) - {"regions"}
  }

  /** An object the controllers change in place. */
  class Unstructured {
    var content: Object

    constructor (content: Object)
      ensures this.content == content
    {
      this.content := content;
    }

    /** SetStatus: makes room for a status that is missing, null or no object, then stores the regions. */
    method SetRegions(regions: Json)
      modifies this
      ensures Regions(content) == regions && OnlyRegionsDiffer(old(content), content)
      ensures "status" in content && content["status"].Obj? && "regions" in content["status"].fields
              && content["status"].fields["regions"] == regions
    {
      if !("status" in content && content["status"].Obj?) {
        content := content["status" := Obj(map[])];
      }
      content := content["status" := Obj(content["status"].fields["regions" := regions])];
      assert Nested(content, ["status", "regions"]) == Nested(content["status"].fields, ["regions"]);
    }
  }

  /** Lookups outside the status do not see the difference. */
  lemma OtherFieldsKept(o: Object, u: Object, path: seq<string>)
    requires OnlyRegionsDiffer(o, u) && path != [] && path[0] != "status"
    ensures Nested(u, path) == Nested(o, path)
  {
    assert path[0] in o <==> path[0] in o - {"status"};
    assert path[0] in u <==> path[0] in u - {"status"};
    if path[0] in o {
      assert (o - {"status"})[path[0]] == o[path[0]] && (u - {"status"})[path[0]] == u[path[0]];
    }
  }
}
