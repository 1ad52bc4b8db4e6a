/** Reconciling one wanted Kubernetes object with the one in the cluster. */
module Reconciler {
  import opened WorkflowTypes
  import opened Utf8Truncation
  import opened CanonicalJson

  /** The own properties of an API object. */
  type Resource = Members

  const API_VERSION := Ascii("apiVersion")
  const KIND := Ascii("kind")
  const METADATA := Ascii("metadata")
  const STATUS := Ascii("status")
  const NAME := Ascii("name")
  const NAMESPACE := Ascii("namespace")
  const LABELS := Ascii("labels")
  const RESOURCE_VERSION := Ascii("resourceVersion")

  /** What the API server adds to the metadata. */
  const SERVER_FIELDS: set<Text> := {
    Ascii("uid"), RESOURCE_VERSION, Ascii("creationTimestamp"), Ascii("deletionTimestamp"), Ascii("generation"),
      Ascii("managedFields")
  }

  const MANAGED := Ascii("platform.io/managed")
  const RUN_ID := Ascii("platform.io/run-id")
  const ATTEMPT := Ascii("platform.io/attempt")
  const STEP_KEY := Ascii("platform.io/step-key")
  const RESOURCE := Ascii("platform.io/resource")

  function Find(members: Members, key: Text): Option<Json> {
    if Has(members, key) then Some(Get(members, key)) else None
  }

  function Meta(r: Resource): Members {
    match Find(r, METADATA)
    case Some(Object(members)) => members
    case _ => NoMembers
  }

  function Labels(r: Resource): Members {
    match Find(Meta(r), LABELS)
    case Some(Object(members)) => members
    case _ => NoMembers
  }

  predicate IsString(v: Option<Json>) {
    v.Some? && v.value.String?
  }

  predicate AreStrings(members: Members) {
    members.Member? ==> members.value.String? && AreStrings(members.rest)
  }

  /** The shape that the types promise. */
  predicate IsResource(r: Resource) {
    && AreMembers(r)
    && IsString(Find(r, API_VERSION)) && IsString(Find(r, KIND))
    && Find(r, METADATA).Some? && Find(r, METADATA).value.Object?
    && IsString(Find(Meta(r), NAME))
    && (Find(Meta(r), NAMESPACE).Some? ==> IsString(Find(Meta(r), NAMESPACE)))
    && (Find(Meta(r), LABELS).Some? ==> Find(Meta(r), LABELS).value.Object? && AreStrings(Labels(r)))
  }

  // ---- Changing objects ----

  function Without(members: Members, keys: set<Text>): Members {
    match members
    case NoMembers => NoMembers
    case Member(key, value, rest) =>
      if key in keys then Without(rest, keys) else Member(key, value, Without(rest, keys))
  }

  /** `{ ...members, [key]: value }`. */
  function With(members: Members, key: Text, value: Json): Members {
    match members
    case NoMembers => Member(key, value, NoMembers)
    case Member(k, v, rest) => if k == key then Member(key, value, rest) else Member(k, v, With(rest, key, value))
  }

  function StripServerFields(r: Resource): Members {
    Without(With(r, METADATA, Object(Without(Meta(r), SERVER_FIELDS))), {STATUS})
  }

  function WithResourceVersion(desired: Resource, version: Option<Json>): Resource {
    if version == None then desired
      else With(desired, METADATA, Object(With(Meta(desired), RESOURCE_VERSION, version.value)))
  }

  // ---- Ownership ----

  datatype Conflict = IdentityMismatch | MetadataMismatch | NotOwned(required: Text)

  function RequiredLabels(desired: Resource): seq<Text> {
    [MANAGED, RUN_ID]
    + (if Find(desired, KIND) != Some(String(Ascii("Namespace"))) then [RESOURCE, ATTEMPT] else [])
    + (if Has(Labels(desired), STEP_KEY) then [STEP_KEY] else [])
  }

  predicate LabelMatches(required: Text, desired: Resource, existing: Resource) {
    Has(Labels(desired), required) && Find(Labels(existing), required) == Find(Labels(desired), required)
  }

  function FirstMismatch(labels: seq<Text>, desired: Resource, existing: Resource): Option<Text> {
    if labels == [] then None
    else if !LabelMatches(labels[0], desired, existing) then Some(labels[0])
    else FirstMismatch(labels[1..], desired, existing)
  }

  /** `assertSameIdentity`. */
  function IdentityConflict(desired: Resource, existing: Resource): Option<Conflict> {
    if Find(desired, API_VERSION) != Find(existing, API_VERSION) || Find(desired, KIND) != Find(existing, KIND) then
      Some(IdentityMismatch)
    else if Find(Meta(desired), NAME) != Find(Meta(existing), NAME)
      || Find(Meta(desired), NAMESPACE) != Find(Meta(existing), NAMESPACE) then
      Some(MetadataMismatch)
    else
      match FirstMismatch(RequiredLabels(desired), desired, existing)
      case Some(required) => Some(NotOwned(required))
      case None => None
  }

  // ---- Ownership, spelled out ----

  /** The metadata and the labels of an object; labels may be missing. */
  predicate Carries(r: Resource, meta: Members, labels: Members) {
    && Find(r, Ascii("metadata")) == Some(Object(meta))
    && (Find(meta, Ascii("labels")) == Some(Object(labels))
        || (Find(meta, Ascii("labels")) == None && labels == NoMembers))
  }

  predicate SameField(a: Members, b: Members, key: Text) {
    Find(a, key) == Find(b, key)
  }

  predicate SameLabel(want: Members, have: Members, key: Text) {
    Find(want, key).Some? && Find(have, key) == Find(want, key)
  }

  /** Kind, version, name and namespace agree, and so do the five labels that make an object the run's:
      the resource and the attempt unless it is a namespace, the step if it is wanted. */
  predicate IsOwn(desired: Resource, meta: Members, want: Members, existing: Resource, meta': Members, have: Members) {
    && SameField(desired, existing, Ascii("apiVersion")) && SameField(desired, existing, Ascii("kind"))
    && SameField(meta, meta', Ascii("name")) && SameField(meta, meta', Ascii("namespace"))
    && SameLabel(want, have, Ascii("platform.io/managed")) && SameLabel(want, have, Ascii("platform.io/run-id"))
    && (Find(desired, Ascii("kind")) != Some(String(Ascii("Namespace"))) ==>
          SameLabel(want, have, Ascii("platform.io/resource")) && SameLabel(want, have, Ascii("platform.io/attempt")))
    && (Find(want, Ascii("platform.io/step-key")).Some? ==> SameLabel(want, have, Ascii("platform.io/step-key")))
  }

  lemma OwnedInFull(desired: Resource, meta: Members, want: Members, existing: Resource, meta': Members, have: Members)
    requires Carries(desired, meta, want) && Carries(existing, meta', have)
    ensures IdentityConflict(desired, existing) == None <==> IsOwn(desired, meta, want, existing, meta', have)
  {
    MetaAndLabels(desired, meta, want);
    MetaAndLabels(existing, meta', have);
    MismatchIff(RequiredLabels(desired), desired, existing);
    RequiredInFull(desired);
    hide FirstMismatch, RequiredLabels, Ascii, Find, Has;
    forall tag
      ensures LabelMatches(tag, desired, existing) <==> SameLabel(want, have, tag)
    {
      LabelIs(tag, desired, existing, want, have);
    }
    hide LabelMatches, SameLabel;
  }

  lemma LabelIs(tag: Text, desired: Resource, existing: Resource, want: Members, have: Members)
    requires Labels(desired) == want && Labels(existing) == have
    ensures LabelMatches(tag, desired, existing) <==> SameLabel(want, have, tag)
  {}

  lemma MetaAndLabels(r: Resource, meta: Members, labels: Members)
    requires Carries(r, meta, labels)
    ensures Meta(r) == meta && Labels(r) == labels
  {
    hide Ascii;
  }

  lemma RequiredInFull(desired: Resource)
    ensures forall tag :: tag in RequiredLabels(desired) <==>
      || tag == Ascii("platform.io/managed") || tag == Ascii("platform.io/run-id")
      || (Find(desired, Ascii("kind")) != Some(String(Ascii("Namespace")))
          && (tag == Ascii("platform.io/resource") || tag == Ascii("platform.io/attempt")))
      || (Find(Labels(desired), Ascii("platform.io/step-key")).Some? && tag == Ascii("platform.io/step-key"))
  {
    hide Ascii;
  }

  // ---- Reconciling ----

  datatype Lookup = Lookup(apiVersion: Option<Json>, kind: Option<Json>, namespace: Option<Json>, name: Option<Json>)

  function LookupOf(r: Resource): Lookup {
    Lookup(Find(r, API_VERSION), Find(r, KIND), Find(Meta(r), NAMESPACE), Find(Meta(r), NAME))
  }

  type Objects = map<Lookup, Resource>

  datatype Outcome =
    | Created(resource: Resource)
    | Updated(resource: Resource)
    | Unchanged(resource: Resource)
    | Refused(conflict: Conflict)

  /** Jobs and volume claims are adopted as they are. */
  predicate AdoptedAsIs(desired: Resource) {
    Find(desired, KIND) in {Some(String(Ascii("Job"))), Some(String(Ascii("PersistentVolumeClaim")))}
  }

  predicate SameText(desired: Resource, existing: Resource) {
    StableJson(Object(StripServerFields(desired))) == StableJson(Object(StripServerFields(existing)))
  }

  /** The cluster, and the objects that were sent to it. */
  datatype Cluster = Cluster(objects: Objects, sent: seq<Resource>)

  /** `stored` is what the server would make of an object that is sent to it. */
  function Reconciled(c: Cluster, desired: Resource, stored: Resource): (Cluster, Outcome) {
    var at := LookupOf(desired);
    if at !in c.objects then
      (Cluster(c.objects[at := stored], c.sent + [desired]), Created(stored))
    else
      var existing := c.objects[at];
      match IdentityConflict(desired, existing)
      case Some(conflict) => (c, Refused(conflict))
      case None =>
        if AdoptedAsIs(desired) || SameText(desired, existing) then (c, Unchanged(existing))
        else
          var update := WithResourceVersion(desired, Find(Meta(existing), RESOURCE_VERSION));
          (Cluster(c.objects[at := stored], c.sent + [update]), Updated(stored))
  }

  datatype Request = Request(desired: Resource, stored: Resource)

  /** `reconcileResources`: in order, up to the first conflict, which is thrown. */
  function ReconciledAll(c: Cluster, plan: seq<Request>): (Cluster, seq<Outcome>)
    decreases |plan|
  {
    if plan == [] then (c, [])
    else
      var (after, outcome) := Reconciled(c, plan[0].desired, plan[0].stored);
      if outcome.Refused? then (after, [outcome])
      else
        var (last, outcomes) := ReconciledAll(after, plan[1..]);
        (last, [outcome] + outcomes)
  }

  class KubernetesClient {
    var objects: Objects
    var sent: seq<Resource>

    constructor ()
      ensures objects == map[] && sent == []
    {
      objects, sent := map[], [];
    }

    ghost function State(): Cluster
      reads this
    {
      Cluster(objects, sent)
    }

    method Write(at: Lookup, resource: Resource, stored: Resource)
      modifies this
      ensures State() == Cluster(old(objects)[at := stored], old(sent) + [resource])
    {
      objects, sent := objects[at := stored], sent + [resource];
    }
  }

  /** An object that carries another run's id, or none, is refused, and nothing is sent. */
  lemma OtherRunsAreLeftAlone(c: Cluster, desired: Resource, stored: Resource)
    requires LookupOf(desired) in c.objects
    requires Find(Labels(desired), Ascii("platform.io/run-id"))
          != Find(Labels(c.objects[LookupOf(desired)]), Ascii("platform.io/run-id"))
    ensures Reconciled(c, desired, stored).0 == c && Reconciled(c, desired, stored).1.Refused?
  {
    var existing := c.objects[LookupOf(desired)];
    MismatchIff(RequiredLabels(desired), desired, existing);
    RequiredInFull(desired);
    assert !LabelMatches(Ascii("platform.io/run-id"), desired, existing);
    hide RequiredLabels, FirstMismatch, Ascii, Labels;
  }

  method ReconcileResource(client: KubernetesClient, desired: Resource, stored: Resource) returns (outcome: Outcome)
    modifies client
    ensures (client.State(), outcome) == Reconciled(old(client.State()), desired, stored)
  {
    var at := LookupOf(desired);
    if at !in client.objects {
      client.Write(at, desired, stored);
      return Created(stored);
    }
    var existing := client.objects[at];
    var conflict := IdentityConflict(desired, existing);
    if conflict.Some? {
      return Refused(conflict.value);
    }
    if AdoptedAsIs(desired) {
      return Unchanged(existing);
    }
    if SameText(desired, existing) {
      return Unchanged(existing);
    }
    client.Write(at, WithResourceVersion(desired, Find(Meta(existing), RESOURCE_VERSION)), stored);
    return Updated(stored);
  }

  method ReconcileResources(client: KubernetesClient, plan: seq<Request>) returns (results: seq<Outcome>)
    modifies client
    ensures (client.State(), results) == ReconciledAll(old(client.State()), plan)
  {
    results := [];
    assert plan[0..] == plan;
    assert [] + ReconciledAll(client.State(), plan).1 == ReconciledAll(client.State(), plan).1;
    for i := 0 to |plan|
      invariant ReconciledAll(old(client.State()), plan) ==
        (ReconciledAll(client.State(), plan[i..]).0, results + ReconciledAll(client.State(), plan[i..]).1)
    {
      assert plan[i..][0] == plan[i] && plan[i..][1..] == plan[i + 1..];
      ghost var rest := ReconciledAll(client.State(), plan[i..]).1;
      var outcome := ReconcileResource(client, plan[i].desired, plan[i].stored);
      assert results + rest ==
        if outcome.Refused? then results + [outcome]
        else (results + [outcome]) + ReconciledAll(client.State(), plan[i + 1..]).1;
      results := results + [outcome];
      if outcome.Refused? {
        return;
      }
    }
    assert plan[|plan|..] == [] && results + [] == results;
  }

  // ---- What counts as a change ----

  ghost predicate Agree(a: Option<Json>, b: Option<Json>) {
    a.Some? == b.Some? && (a.Some? ==> Same(a.value, b.value))
  }

  ghost predicate AgreeOn(a: Members, b: Members, key: Text) {
    Agree(Find(a, key), Find(b, key))
  }

  /** The objects agree on every field, except on what a server adds. */
  ghost predicate SameButServerFields(a: Resource, b: Resource) {
    && (forall key :: key !in {STATUS, METADATA, PROTO} ==> AgreeOn(a, b, key))
    && (forall key :: key !in SERVER_FIELDS && key != PROTO ==> AgreeOn(Meta(a), Meta(b), key))
  }

  lemma {:induction false} WithoutFinds(members: Members, keys: set<Text>, k: Text)
    ensures Find(Without(members, keys), k) == if k in keys then None else Find(members, k)
    ensures AreMembers(members) ==> AreMembers(Without(members, keys))
  {
    hide IsJson;
    if members.Member? {
      WithoutFinds(members.rest, keys, k);
      WithoutFinds(members.rest, keys, members.key);
    }
  }

  lemma {:induction false} WithFinds(members: Members, key: Text, value: Json, k: Text)
    ensures Find(With(members, key, value), k) == if k == key then Some(value) else Find(members, k)
    ensures AreMembers(members) && IsJson(value) ==> AreMembers(With(members, key, value))
  {
    hide IsJson;
    if members.Member? {
      WithFinds(members.rest, key, value, k);
      WithFinds(members.rest, key, value, members.key);
    }
  }

  lemma {:induction false} IncludesFinds(a: Members, b: Members)
    requires AreMembers(a)
    ensures Includes(a, b) <==> forall key :: key != PROTO && Has(a, key) ==> AgreeOn(a, b, key)
  {
    hide Same, IsJson;
    if a.Member? {
      IncludesFinds(a.rest, b);
      forall key | key != a.key && Has(a.rest, key)
        ensures AgreeOn(a, b, key) == AgreeOn(a.rest, b, key)
      {}
      if forall key :: key != PROTO && Has(a, key) ==> AgreeOn(a, b, key) {
        assert a.key != PROTO ==> AgreeOn(a, b, a.key);
        assert forall key :: key != PROTO && Has(a.rest, key) ==> key != a.key && Has(a, key) && AgreeOn(a, b, key);
      }
    }
  }

  /** Objects are the same when they agree on every key. */
  lemma SameObjects(a: Members, b: Members)
    requires AreMembers(a)
    ensures Same(Object(a), Object(b)) <==> forall key :: key != PROTO ==> AgreeOn(a, b, key)
  {
    hide Includes;
    IncludesFinds(a, b);
    if Same(Object(a), Object(b)) {
      forall key | key != PROTO
        ensures AgreeOn(a, b, key)
      {}
    }
    if forall key :: key != PROTO ==> AgreeOn(a, b, key) {
      forall key | key != PROTO && Has(b, key)
        ensures Has(a, key)
      {
        assert AgreeOn(a, b, key);
      }
    }
  }

  lemma StrippedFinds(r: Resource, key: Text)
    ensures Find(StripServerFields(r), key) ==
      if key == STATUS then None
      else if key == METADATA then Some(Object(Without(Meta(r), SERVER_FIELDS)))
      else Find(r, key)
  {
    hide Find, SERVER_FIELDS, Meta, STATUS;
    var meta := Object(Without(Meta(r), SERVER_FIELDS));
    WithFinds(r, METADATA, meta, key);
    WithoutFinds(With(r, METADATA, meta), {STATUS}, key);
  }

  lemma StrippedIsJson(r: Resource)
    requires IsResource(r)
    ensures AreMembers(StripServerFields(r)) && AreMembers(Without(Meta(r), SERVER_FIELDS))
  {
    hide Find, SERVER_FIELDS;
    MetaIsJson(r);
    var meta := Object(Without(Meta(r), SERVER_FIELDS));
    WithoutFinds(Meta(r), SERVER_FIELDS, []);
    WithFinds(r, METADATA, meta, []);
    WithoutFinds(With(r, METADATA, meta), {STATUS}, []);
  }

  lemma MetaIsJson(r: Resource)
    requires IsResource(r)
    ensures AreMembers(Meta(r)) && AreMembers(Labels(r))
  {
    GetIsJson(r, METADATA);
    if Has(Meta(r), LABELS) {
      GetIsJson(Meta(r), LABELS);
    }
  }

  lemma MetaAgrees(a: Resource, b: Resource)
    requires IsResource(a)
    ensures Same(Object(Without(Meta(a), SERVER_FIELDS)), Object(Without(Meta(b), SERVER_FIELDS))) <==>
      forall key :: key !in SERVER_FIELDS && key != PROTO ==> AgreeOn(Meta(a), Meta(b), key)
  {
    hide SERVER_FIELDS, IsResource, Same, Find;
    StrippedIsJson(a);
    var x, y := Without(Meta(a), SERVER_FIELDS), Without(Meta(b), SERVER_FIELDS);
    SameObjects(x, y);
    forall key
      ensures AgreeOn(x, y, key) <==> key in SERVER_FIELDS || AgreeOn(Meta(a), Meta(b), key)
    {
      WithoutFinds(Meta(a), SERVER_FIELDS, key);
      WithoutFinds(Meta(b), SERVER_FIELDS, key);
    }
  }

  lemma StrippedAgrees(desired: Resource, existing: Resource, key: Text)
    ensures var x, y := StripServerFields(desired), StripServerFields(existing);
      && (key !in {STATUS, METADATA} ==> (AgreeOn(x, y, key) <==> AgreeOn(desired, existing, key)))
      && (key == STATUS ==> AgreeOn(x, y, key))
      && (key == METADATA && key != STATUS ==>
            (AgreeOn(x, y, key) <==>
              Same(Object(Without(Meta(desired), SERVER_FIELDS)), Object(Without(Meta(existing), SERVER_FIELDS)))))
  {
    hide SERVER_FIELDS, Same, Find, StripServerFields;
    StrippedFinds(desired, key);
    StrippedFinds(existing, key);
  }

  /** The comparison of canonical texts finds exactly the differences that are not the server's. */
  lemma SameTextIff(desired: Resource, existing: Resource)
    requires IsResource(desired) && IsResource(existing)
    ensures SameText(desired, existing) <==> SameButServerFields(desired, existing)
  {
    hide SERVER_FIELDS, IsResource, Same, Find, StripServerFields, StableJson, AgreeOn;
    var x, y := StripServerFields(desired), StripServerFields(existing);
    StrippedIsJson(desired);
    StrippedIsJson(existing);
    StableJsonIsCanonical(Object(x), Object(y));
    SameObjects(x, y);
    MetaAgrees(desired, existing);
    forall key
      ensures key !in {STATUS, METADATA} ==> (AgreeOn(x, y, key) <==> AgreeOn(desired, existing, key))
      ensures key == STATUS ==> AgreeOn(x, y, key)
      ensures key == METADATA && key != STATUS ==>
        (AgreeOn(x, y, key) <==>
          Same(Object(Without(Meta(desired), SERVER_FIELDS)), Object(Without(Meta(existing), SERVER_FIELDS))))
    {
      StrippedAgrees(desired, existing, key);
    }
    assert METADATA != PROTO && STATUS != METADATA by { assert |METADATA| != |PROTO|; }
    if SameText(desired, existing) {
      assert AgreeOn(x, y, METADATA);
    }
    if SameButServerFields(desired, existing) {
      forall key | key != PROTO
        ensures AgreeOn(x, y, key)
      {
        assert key in {STATUS, METADATA} || AgreeOn(desired, existing, key);
      }
    }
  }

  // ---- Ownership ----

  /** The wanted object carries every label by which it will be recognised. */
  predicate CarriesItsLabels(desired: Resource) {
    forall required :: required in RequiredLabels(desired) ==> Has(Labels(desired), required)
  }

  lemma {:induction false} MismatchIff(labels: seq<Text>, desired: Resource, existing: Resource)
    ensures FirstMismatch(labels, desired, existing) == None <==>
      forall required :: required in labels ==> LabelMatches(required, desired, existing)
    ensures FirstMismatch(labels, desired, existing).Some? ==>
      FirstMismatch(labels, desired, existing).value in labels
        && !LabelMatches(FirstMismatch(labels, desired, existing).value, desired, existing)
  {
    hide LabelMatches;
    if labels != [] {
      MismatchIff(labels[1..], desired, existing);
    }
  }

  // ---- Reconciling, spelled out ----

  /** Agreement on everything but what the API server adds. */
  ghost predicate SameInFull(a: Resource, meta: Members, b: Resource, meta': Members) {
    && (forall key :: key !in {Ascii("metadata"), Ascii("status"), Ascii("__proto__")} ==> AgreeOn(a, b, key))
    && (forall key ::
          key !in {Ascii("uid"), Ascii("resourceVersion"), Ascii("creationTimestamp"), Ascii("deletionTimestamp"),
                   Ascii("generation"), Ascii("managedFields"), Ascii("__proto__")} ==>
            AgreeOn(meta, meta', key))
  }

  /** The wanted object, with the version of the stored one if that has a version. */
  ghost predicate IsUpdate(update: Resource, desired: Resource, meta: Members, version: Option<Json>) {
    && (forall key :: key != Ascii("metadata") ==> SameField(update, desired, key))
    && exists m ::
      && Find(update, Ascii("metadata")) == Some(Object(m))
      && forall key :: Find(m, key) ==
           if key == Ascii("resourceVersion") && version.Some? then version else Find(meta, key)
  }

  lemma UpdateInFull(desired: Resource, meta: Members, version: Option<Json>)
    requires Find(desired, Ascii("metadata")) == Some(Object(meta))
    ensures IsUpdate(WithResourceVersion(desired, version), desired, meta, version)
  {
    hide Ascii;
    if version.Some? {
      var m := With(meta, RESOURCE_VERSION, version.value);
      forall key
        ensures Find(m, key) == if key == RESOURCE_VERSION then version else Find(meta, key)
        ensures Find(With(desired, METADATA, Object(m)), key) ==
          if key == METADATA then Some(Object(m)) else Find(desired, key)
      {
        WithFinds(meta, RESOURCE_VERSION, version.value, key);
        WithFinds(desired, METADATA, Object(m), key);
      }
    }
  }

  lemma SameTextInFull(desired: Resource, meta: Members, existing: Resource, meta': Members)
    requires IsResource(desired) && IsResource(existing)
    requires Find(desired, Ascii("metadata")) == Some(Object(meta))
    requires Find(existing, Ascii("metadata")) == Some(Object(meta'))
    ensures SameText(desired, existing) <==> SameInFull(desired, meta, existing, meta')
  {
    SameTextIff(desired, existing);
    assert Meta(desired) == meta && Meta(existing) == meta';
    hide AgreeOn, Ascii, IsResource, SameText, Find;
  }

  /** What becomes of a stored object: another run's is refused and nothing is sent; Jobs and volume
      claims stay; what agrees stays; everything else is updated under the version that is stored. */
  lemma ReconciledInFull(c: Cluster, desired: Resource, meta: Members, want: Members, stored: Resource, meta': Members,
      have: Members)
    requires IsResource(desired) && Carries(desired, meta, want)
    requires var at := Lookup(Find(desired, Ascii("apiVersion")), Find(desired, Ascii("kind")),
        Find(meta, Ascii("namespace")), Find(meta, Ascii("name")));
      at in c.objects ==> IsResource(c.objects[at]) && Carries(c.objects[at], meta', have)
    ensures var at := Lookup(Find(desired, Ascii("apiVersion")), Find(desired, Ascii("kind")),
        Find(meta, Ascii("namespace")), Find(meta, Ascii("name")));
      var (after, outcome) := Reconciled(c, desired, stored);
      if at !in c.objects then
        after == Cluster(c.objects[at := stored], c.sent + [desired]) && outcome == Created(stored)
      else if !IsOwn(desired, meta, want, c.objects[at], meta', have) then
        after == c && outcome.Refused?
      else if Find(desired, Ascii("kind")) == Some(String(Ascii("Job")))
        || Find(desired, Ascii("kind")) == Some(String(Ascii("PersistentVolumeClaim")))
        || SameInFull(desired, meta, c.objects[at], meta') then
        after == c && outcome == Unchanged(c.objects[at])
      else
        && outcome == Updated(stored) && after.objects == c.objects[at := stored]
        && exists update ::
          && after.sent == c.sent + [update]
          && IsUpdate(update, desired, meta, Find(meta', Ascii("resourceVersion")))
  {
    MetaAndLabels(desired, meta, want);
    var at := LookupOf(desired);
    if at in c.objects {
      var existing := c.objects[at];
      MetaAndLabels(existing, meta', have);
      OwnedInFull(desired, meta, want, existing, meta', have);
      SameTextInFull(desired, meta, existing, meta');
      UpdateInFull(desired, meta, Find(meta', RESOURCE_VERSION));
      hide IsOwn, SameInFull, SameText, IdentityConflict, IsUpdate, WithResourceVersion, Ascii, IsResource;
    }
  }

  /** An object is taken for the run's own exactly when its identity and every required label match. */
  lemma OwnedIff(desired: Resource, existing: Resource)
    ensures IdentityConflict(desired, existing) == None <==>
      && Find(desired, API_VERSION) == Find(existing, API_VERSION) && Find(desired, KIND) == Find(existing, KIND)
      && Find(Meta(desired), NAME) == Find(Meta(existing), NAME)
        && Find(Meta(desired), NAMESPACE) == Find(Meta(existing), NAMESPACE)
      && forall required :: required in RequiredLabels(desired) ==> LabelMatches(required, desired, existing)
  {
    MismatchIff(RequiredLabels(desired), desired, existing);
  }

  /** What one reconciliation does, in terms of the two objects: it writes exactly when the object
      is missing, or is the run's own, may be updated, and differs in a field that is not the
      server's. A foreign object is never written to. */
  lemma WritesExactlyWhenNeeded(c: Cluster, desired: Resource, stored: Resource)
    requires IsResource(desired) && forall at :: at in c.objects ==> IsResource(c.objects[at])
    ensures var (after, outcome) := Reconciled(c, desired, stored); var at := LookupOf(desired);
      && (after.sent != c.sent <==>
            at !in c.objects
            || (IdentityConflict(desired, c.objects[at]) == None && !AdoptedAsIs(desired)
              && !SameButServerFields(desired, c.objects[at])))
      && (after.sent == c.sent ==> after == c)
      && (outcome.Refused? <==> at in c.objects && IdentityConflict(desired, c.objects[at]).Some?)
  {
    var at := LookupOf(desired);
    if at in c.objects {
      SameTextIff(desired, c.objects[at]);
    }
  }

  lemma LabelsAgree(desired: Resource, existing: Resource, required: Text)
    requires IsResource(desired) && IsResource(existing) && SameButServerFields(desired, existing) && required != PROTO
    ensures Find(Labels(existing), required) == Find(Labels(desired), required)
  {
    hide SERVER_FIELDS, Same;
    LabelsAreNotTheServers();
    assert AgreeOn(Meta(desired), Meta(existing), LABELS);
    if Has(Meta(desired), LABELS) {
      MetaIsJson(desired);
      SameObjects(Labels(desired), Labels(existing));
      assert AgreeOn(Labels(desired), Labels(existing), required);
      if Has(Labels(desired), required) {
        StringsAreEqual(Labels(desired), Labels(existing), required);
      }
    }
  }

  lemma LabelsAreNotTheServers()
    ensures LABELS !in SERVER_FIELDS && LABELS != PROTO
    ensures NAME !in SERVER_FIELDS && NAME != PROTO && NAMESPACE !in SERVER_FIELDS && NAMESPACE != PROTO
    ensures API_VERSION !in {STATUS, METADATA, PROTO} && KIND !in {STATUS, METADATA, PROTO}
  {
    assert forall field :: field in SERVER_FIELDS ==> |field| in {3, 15, 17, 10, 13};
    assert |LABELS| == 6 && |NAME| == 4 && |NAMESPACE| == 9 && |PROTO| == 9 && |API_VERSION| == 10 && |KIND| == 4
      && |STATUS| == 6 && |METADATA| == 8;
    assert NAMESPACE[0] != PROTO[0];
  }

  lemma {:induction false} StringsAreEqual(a: Members, b: Members, key: Text)
    requires AreStrings(a) && Has(a, key) && Has(b, key) && Same(Get(a, key), Get(b, key))
    ensures Get(a, key) == Get(b, key)
  {
    if a.key != key {
      StringsAreEqual(a.rest, b, key);
    }
  }

  lemma RequiredAreNotProto(desired: Resource)
    ensures forall required :: required in RequiredLabels(desired) ==> required != PROTO
  {
    assert |MANAGED| == 19 && |RUN_ID| == 18 && |ATTEMPT| == 19 && |STEP_KEY| == 20 && |RESOURCE| == 20 && |PROTO| == 9;
  }

  /** An object that differs from the wanted one only in the server's fields is the run's own if and
      only if the wanted object carries its labels. */
  lemma OwnedIffLabelled(desired: Resource, existing: Resource)
    requires IsResource(desired) && IsResource(existing) && SameButServerFields(desired, existing)
    ensures IdentityConflict(desired, existing) == None <==> CarriesItsLabels(desired)
  {
    hide RequiredLabels, SERVER_FIELDS;
    OwnedIff(desired, existing);
    LabelsAreNotTheServers();
    assert AgreeOn(desired, existing, API_VERSION) && AgreeOn(desired, existing, KIND);
    assert AgreeOn(Meta(desired), Meta(existing), NAME) && AgreeOn(Meta(desired), Meta(existing), NAMESPACE);
    RequiredAreNotProto(desired);
    forall required | required in RequiredLabels(desired)
      ensures LabelMatches(required, desired, existing) <==> Has(Labels(desired), required)
    {
      LabelsAgree(desired, existing, required);
    }
  }

  /** The server stores what it is sent and adds only fields of its own. */
  ghost predicate FaithfulServer(r: Request) {
    IsResource(r.desired) && IsResource(r.stored) && SameButServerFields(r.desired, r.stored)
  }

  /** After a write that the server stored faithfully, reconciling again writes nothing; it answers
      `unchanged` if and only if the wanted object carries its labels, and refuses it otherwise. */
  lemma SecondTimeIsQuiet(c: Cluster, r: Request, again: Resource)
    requires FaithfulServer(r)
    requires Reconciled(c, r.desired, r.stored).1.Created? || Reconciled(c, r.desired, r.stored).1.Updated?
    ensures var (after, first) := Reconciled(c, r.desired, r.stored);
      var (end, second) := Reconciled(after, r.desired, again);
      && end == after
      && (second == Unchanged(r.stored) <==> CarriesItsLabels(r.desired))
      && (second.Refused? <==> !CarriesItsLabels(r.desired))
  {
    hide IdentityConflict, SameText, SameButServerFields, IsResource, CarriesItsLabels, AdoptedAsIs,
      WithResourceVersion, LookupOf;
    SameTextIff(r.desired, r.stored);
    OwnedIffLabelled(r.desired, r.stored);
  }

  // ---- A whole plan ----

  /** No two requests are for the same object. */
  predicate DistinctObjects(plan: seq<Request>) {
    forall i, j :: 0 <= i < j < |plan| ==> LookupOf(plan[i].desired) != LookupOf(plan[j].desired)
  }

  /** The cluster holds what the request wants, as its owner left it. */
  ghost predicate InPlace(c: Cluster, r: Request) {
    && LookupOf(r.desired) in c.objects
    && IdentityConflict(r.desired, c.objects[LookupOf(r.desired)]) == None
    && (AdoptedAsIs(r.desired) || SameText(r.desired, c.objects[LookupOf(r.desired)]))
  }

  lemma ReconciledIsInPlace(c: Cluster, r: Request)
    requires FaithfulServer(r) && CarriesItsLabels(r.desired) && !Reconciled(c, r.desired, r.stored).1.Refused?
    ensures InPlace(Reconciled(c, r.desired, r.stored).0, r)
    ensures forall at :: at != LookupOf(r.desired) ==>
      (at in Reconciled(c, r.desired, r.stored).0.objects <==> at in c.objects) &&
      (at in c.objects ==> Reconciled(c, r.desired, r.stored).0.objects[at] == c.objects[at])
  {
    hide IdentityConflict, SameText, SameButServerFields, IsResource, CarriesItsLabels, AdoptedAsIs,
      WithResourceVersion, LookupOf;
    SameTextIff(r.desired, r.stored);
    OwnedIffLabelled(r.desired, r.stored);
  }

  lemma InPlaceStays(c: Cluster, after: Cluster, r: Request)
    requires InPlace(c, r)
    requires LookupOf(r.desired) in c.objects ==>
      LookupOf(r.desired) in after.objects && after.objects[LookupOf(r.desired)] == c.objects[LookupOf(r.desired)]
    ensures InPlace(after, r)
  {
    hide IdentityConflict, SameText, AdoptedAsIs, LookupOf;
  }

  lemma FirstWentThrough(c: Cluster, plan: seq<Request>)
    requires plan != [] && forall outcome :: outcome in ReconciledAll(c, plan).1 ==> !outcome.Refused?
    ensures var (after, outcome) := Reconciled(c, plan[0].desired, plan[0].stored);
      && !outcome.Refused?
      && ReconciledAll(c, plan).0 == ReconciledAll(after, plan[1..]).0
      && forall o :: o in ReconciledAll(after, plan[1..]).1 ==> !o.Refused?
  {
    hide Reconciled;
    var (after, outcome) := Reconciled(c, plan[0].desired, plan[0].stored);
    assert ReconciledAll(c, plan).1[0] == outcome;
    assert !outcome.Refused?;
    assert ReconciledAll(c, plan).1 == [outcome] + ReconciledAll(after, plan[1..]).1;
  }

  lemma RestIsDistinct(plan: seq<Request>)
    requires plan != [] && DistinctObjects(plan)
    ensures DistinctObjects(plan[1..]) && forall q :: q in plan[1..] ==>
      LookupOf(plan[0].desired) != LookupOf(q.desired)
  {
    hide LookupOf;
    var rest := plan[1..];
    assert forall i :: 0 <= i < |rest| ==> rest[i] == plan[i + 1];
  }

  lemma {:induction false} PlanPutsInPlace(c: Cluster, plan: seq<Request>)
    requires DistinctObjects(plan) && forall r :: r in plan ==> FaithfulServer(r) && CarriesItsLabels(r.desired)
    requires forall outcome :: outcome in ReconciledAll(c, plan).1 ==> !outcome.Refused?
    ensures forall r :: r in plan ==> InPlace(ReconciledAll(c, plan).0, r)
    ensures forall at :: (forall r :: r in plan ==> at != LookupOf(r.desired)) && at in c.objects ==>
      at in ReconciledAll(c, plan).0.objects && ReconciledAll(c, plan).0.objects[at] == c.objects[at]
    decreases |plan|
  {
    if plan != [] {
      hide Reconciled, InPlace, FaithfulServer, CarriesItsLabels, LookupOf;
      var r, rest := plan[0], plan[1..];
      var after := Reconciled(c, r.desired, r.stored).0;
      FirstWentThrough(c, plan);
      hide ReconciledAll;
      RestIsDistinct(plan);
      hide DistinctObjects;
      assert plan == [r] + rest;
      ReconciledIsInPlace(c, r);
      PlanPutsInPlace(after, rest);
      InPlaceStays(after, ReconciledAll(after, rest).0, r);
    }
  }

  lemma {:induction false} InPlaceIsQuiet(c: Cluster, plan: seq<Request>)
    requires forall r :: r in plan ==> InPlace(c, r)
    ensures ReconciledAll(c, plan).0 == c && |ReconciledAll(c, plan).1| == |plan|
    ensures forall outcome :: outcome in ReconciledAll(c, plan).1 ==> outcome.Unchanged?
    decreases |plan|
  {
    if plan != [] {
      hide IdentityConflict, SameText, AdoptedAsIs, WithResourceVersion, LookupOf;
      assert InPlace(c, plan[0]);
      InPlaceIsQuiet(c, plan[1..]);
    }
  }

  /** A plan of distinct objects that went through once goes through again without a single write,
      every answer being `unchanged`. */
  lemma SecondPlanIsQuiet(c: Cluster, plan: seq<Request>)
    requires DistinctObjects(plan) && forall r :: r in plan ==> FaithfulServer(r) && CarriesItsLabels(r.desired)
    requires forall outcome :: outcome in ReconciledAll(c, plan).1 ==> !outcome.Refused?
    ensures var after := ReconciledAll(c, plan).0;
      && ReconciledAll(after, plan).0 == after
      && |ReconciledAll(after, plan).1| == |plan|
      && forall outcome :: outcome in ReconciledAll(after, plan).1 ==> outcome.Unchanged?
  {
    PlanPutsInPlace(c, plan);
    InPlaceIsQuiet(ReconciledAll(c, plan).0, plan);
  }
}
