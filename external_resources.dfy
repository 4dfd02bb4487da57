/**
 * External-mode bootstrap of a StorageCluster: the descriptors of the
 * external cluster details secret become ConfigMaps, Secrets and up to three
 * StorageClasses, created only where absent; the ROOK_CSI_ENABLE_CEPHFS flag
 * of the Rook operator config follows whether a "cephfs" StorageClass was
 * described; a status boolean makes the whole pass one-shot.
 *
 * Each Go function has a pure specification over `World` values (the store
 * and its call log) and a method of `Reconciler` that performs it on the
 * `Client` and is proved to agree with that specification.
 */
module ExternalResources {
  import opened Wrappers
  import opened Utf8
  import opened Store

  const ExternalClusterDetailsSecret: string := "rook-ceph-external-cluster-details"
  const ExternalClusterDetailsKey: string := "external_cluster_details"
  const CephFsStorageClassName: string := "cephfs"
  const CephRbdStorageClassName: string := "ceph-rbd"
  const CephRgwStorageClassName: string := "ceph-rgw"
  const ExternalCephRgwEndpointKey: string := "endpoint"
  const RookCephOperatorConfigName: string := "rook-ceph-operator-config"
  const RookEnableCephFSCSIKey: string := "ROOK_CSI_ENABLE_CEPHFS"

  /** One parsed entry of the external cluster details. */
  datatype ExternalResource = ExternalResource(kind: string, data: map<string, string>, name: string)

  /** The parts of the StorageCluster the bootstrap reads. */
  datatype ClusterMeta = ClusterMeta(name: string, namespace: string, uid: string)

  /** Where the Go code dereferences a nil pointer or writes into a nil map. */
  datatype Panic =
    | NilStorageClassParameters(descriptor: string)  // `sc.Parameters[k] = v` with sc == nil
    | NilStorageClassEntry                           // a nil entry of availableSCs reaching creation
    | NilOperatorConfigData                          // `Data[key] = v` on a ConfigMap without data

  /** What a call ends with: nil error, a returned error, or a panic. */
  datatype Outcome = Done | Failed(err: Error) | Panicked(cause: Panic)

  /** The three StorageClass templates, in the order newStorageClasses returns them. */
  datatype Role = CephFS | Rbd | Rgw

  datatype Templates = Templates(cephfs: StorageClass, rbd: StorageClass, rgw: StorageClass)
  {
    /** `scs[0]`, `scs[1]`, `scs[2]`. */
    function At(r: Role): StorageClass
    {
      match r
      case CephFS => cephfs
      case Rbd => rbd
      case Rgw => rgw
    }

    /** Replaces template `r`. */
    function With(r: Role, sc: StorageClass): (t: Templates)
      ensures t.At(r) == sc
      ensures forall o :: o != r ==> t.At(o) == At(o)
    {
      match r
      case CephFS => this.(cephfs := sc)
      case Rbd => this.(rbd := sc)
      case Rgw => this.(rgw := sc)
    }

    /** Copies every entry of `data` into the parameters of template `r`. */
    function Merge(r: Role, data: map<string, string>): Templates
    {
      With(r, At(r).(parameters := At(r).parameters + data))
    }
  }

  /** The template a StorageClass descriptor selects by name; None leaves `sc` nil. */
  function RoleOf(name: string): (r: Option<Role>)
    ensures r == Some(CephFS) <==> name == CephFsStorageClassName
    ensures r == Some(Rbd) <==> name == CephRbdStorageClassName
    ensures r == Some(Rgw) <==> name == CephRgwStorageClassName
  {
    if name == CephFsStorageClassName then Some(CephFS)
    else if name == CephRbdStorageClassName then Some(Rbd)
    else if name == CephRgwStorageClassName then Some(Rgw)
    else None
  }

  function OwnerOf(c: ClusterMeta): OwnerRef
  {
    OwnerRef(c.uid, c.name)
  }

  function DetailsKey(c: ClusterMeta): ObjectKey
  {
    ObjectKey(SecretKind, c.namespace, ExternalClusterDetailsSecret)
  }

  function OperatorConfigKey(c: ClusterMeta): ObjectKey
  {
    ObjectKey(ConfigMapKind, c.namespace, RookCephOperatorConfigName)
  }

  /** Go's `m[k]` on a map of strings: the zero value "" for a missing key. */
  function MapGet(m: map<string, string>, k: string): string
  {
    if k in m then m[k] else ""
  }

  /** Go's `m[k]` on a map of byte slices: nil (no bytes) for a missing key. */
  function MapGetBytes(m: map<string, Bytes>, k: string): Bytes
  {
    if k in m then m[k] else []
  }

  /** `fmt.Sprintf("%v", b)` for a bool. */
  function FormatBool(b: bool): (s: string)
    ensures s != ""
    ensures s == "true" <==> b
  {
    if b then "true" else "false"
  }

  /** `strings.Replace(s, ":", "_", -1)`: every colon becomes an underscore. */
  function ReplaceColons(s: string): (r: string)
    ensures |r| == |s|
    ensures forall i :: 0 <= i < |s| ==> r[i] == if s[i] == ':' then '_' else s[i]
    ensures ':' !in r
  {
    if s == [] then [] else [if s[0] == ':' then '_' else s[0]] + ReplaceColons(s[1..])
  }

  /** The data of the Secret built from a descriptor: each value as its bytes. */
  function SecretBytes(data: map<string, string>): (r: map<string, Bytes>)
    ensures r.Keys == data.Keys
  {
    map k | k in data :: Encode(data[k])
  }

  /**
   * `json.Unmarshal` into `[]ExternalResource`, given as a pure function;
   * an empty payload (a missing key reads as nil) is a parse error.
   */
  function Unmarshal(raw: Bytes, decode: Bytes -> Option<seq<ExternalResource>>): (r: Option<seq<ExternalResource>>)
    ensures raw == [] ==> r.None?
  {
    if raw == [] then None else decode(raw)
  }

  /**
   * newStorageClasses: the three templates with empty parameters, or the
   * error it reports (`fault`).
   */
  function NewStorageClasses(c: ClusterMeta, fault: Option<string>): (r: Result<Templates, Error>)
    ensures r.Success? <==> fault.None?
    ensures r.Success? ==> forall role :: r.value.At(role).parameters == map[]
  {
    if fault.Some? then Failure(TemplateError(fault.value))
    else Success(Templates(
      StorageClass(c.name + "-" + CephFsStorageClassName, map[]),
      StorageClass(c.name + "-" + CephRbdStorageClassName, map[]),
      StorageClass(c.name + "-" + CephRgwStorageClassName, map[])))
  }

  function TemplateKey(scs: Templates, r: Role): ObjectKey
  {
    KeyOf(StorageClassObject(scs.At(r)))
  }

  /**
   * createExternalStorageClusterConfigMap / createExternalStorageClusterSecret:
   * Get by key; an existing object is left alone, "not found" leads to one
   * Create, any other Get error is returned.
   */
  function CreateIfAbsent(w: World, f: Faults, key: ObjectKey, obj: Object): (r: (World, Option<Error>))
    requires WellKeyed(w.objects) && KeyOf(obj) == key
    ensures WellKeyed(r.0.objects)
    // found: nothing changes, nil is returned
    ensures key !in f.get && key in w.objects ==>
      r.0.objects == w.objects && r.1.None? && r.0.calls == w.calls + [GetCall(key)]
    // not found: exactly `obj` is created, or the Create error is returned
    ensures key !in f.get && key !in w.objects ==>
      && r.0.calls == w.calls + [GetCall(key), CreateCall(key)]
      && (r.1.None? <==> key !in f.create)
      && (r.1.Some? ==> r.1.value == BackendError(key, f.create[key]))
      && r.0.objects == if r.1.None? then w.objects[key := obj] else w.objects
    // any other Get error: returned, nothing created
    ensures key in f.get ==>
      r.0.objects == w.objects && r.1 == Some(BackendError(key, f.get[key]))
      && r.0.calls == w.calls + [GetCall(key)]
  {
    var (w1, got) := Get(w, f, key);
    if got.Success? then (w1, None)
    else if got.error.NotFound? then Create(w1, f, obj)
    else (w1, Some(got.error))
  }

  /** The variables of createExternalStorageClusterResources' loop, with the store and the endpoint. */
  datatype Acc = Acc(
    world: World,
    endpoint: string,                // externalRgwEndpoint
    scs: Templates,
    available: seq<Option<Role>>,    // availableSCs; None is a nil pointer
    enableCephFS: bool,              // enableRookCSICephFS
    status: Outcome)                 // Done while the loop is still running

  predicate IsStorageClassFor(d: ExternalResource, r: Role)
  {
    d.kind == "StorageClass" && RoleOf(d.name) == Some(r)
  }

  /** One iteration of the loop over the descriptors; a halted loop stays halted. */
  function Step(a: Acc, d: ExternalResource, c: ClusterMeta, f: Faults): (r: Acc)
    requires WellKeyed(a.world.objects)
    ensures WellKeyed(r.world.objects)
    ensures !a.status.Done? ==> r == a
  {
    if !a.status.Done? then a
    else if d.kind == "ConfigMap" then
      AfterCreate(a, CreateIfAbsent(a.world, f, ObjectKey(ConfigMapKind, c.namespace, d.name), ConfigMap(DescriptorMeta(d, c), d.data)))
    else if d.kind == "Secret" then
      AfterCreate(a, CreateIfAbsent(a.world, f, ObjectKey(SecretKind, c.namespace, d.name), Secret(DescriptorMeta(d, c), SecretBytes(d.data))))
    else if d.kind == "StorageClass" then
      SelectStorageClass(a, d)
    else
      a
  }

  /** The metadata of a ConfigMap or Secret built from a descriptor: owned by the cluster. */
  function DescriptorMeta(d: ExternalResource, c: ClusterMeta): ObjectMeta
  {
    ObjectMeta(d.name, c.namespace, Some(OwnerOf(c)))
  }

  function AfterCreate(a: Acc, created: (World, Option<Error>)): (r: Acc)
    ensures r.(world := a.world, status := a.status) == a
  {
    a.(world := created.0, status := if created.1.Some? then Failed(created.1.value) else Done)
  }

  /** The "StorageClass" case: select a template by name, merge the data into it, list it. */
  function SelectStorageClass(a: Acc, d: ExternalResource): (r: Acc)
    // an unknown name with data to copy dereferences the nil template
    ensures RoleOf(d.name).None? && d.data != map[] ==>
      r == a.(status := Panicked(NilStorageClassParameters(d.name)))
    // otherwise: the named template takes the data, one entry is listed,
    // "cephfs" sets the flag and "ceph-rgw" the sanitised endpoint; the store is untouched
    ensures !(RoleOf(d.name).None? && d.data != map[]) ==>
      && r.world == a.world && r.status == a.status
      && r.scs == (if RoleOf(d.name).Some? then a.scs.Merge(RoleOf(d.name).value, d.data) else a.scs)
      && r.available == a.available + [RoleOf(d.name)]
      && (r.enableCephFS <==> a.enableCephFS || d.name == CephFsStorageClassName)
      && r.endpoint == if d.name == CephRgwStorageClassName then ReplaceColons(MapGet(d.data, ExternalCephRgwEndpointKey)) else a.endpoint
  {
    var role := RoleOf(d.name);
    if role.None? && d.data != map[] then
      a.(status := Panicked(NilStorageClassParameters(d.name)))
    else
      a.(scs := if role.Some? then a.scs.Merge(role.value, d.data) else a.scs,
         available := a.available + [role],
         enableCephFS := a.enableCephFS || role == Some(CephFS),
         endpoint := if role == Some(Rgw) then ReplaceColons(MapGet(d.data, ExternalCephRgwEndpointKey)) else a.endpoint)
  }

  /** The loop run over `ds` from the state `a`. */
  function Steps(a: Acc, ds: seq<ExternalResource>, c: ClusterMeta, f: Faults): (r: Acc)
    requires WellKeyed(a.world.objects)
    ensures WellKeyed(r.world.objects)
    decreases |ds|
  {
    if ds == [] then a else Steps(Step(a, ds[0], c, f), ds[1..], c, f)
  }

  /**
   * createStorageClasses: each listed template, in order, is created unless a
   * StorageClass of its name exists; the first error stops it, a nil entry panics.
   */
  function CreateStorageClassesEffect(w: World, f: Faults, scs: Templates, available: seq<Option<Role>>): (r: (World, Outcome))
    requires WellKeyed(w.objects)
    ensures WellKeyed(r.0.objects)
    // the only errors are injected backend failures
    ensures r.1.Failed? ==> r.1.err.BackendError? && (r.1.err.key in f.get || r.1.err.key in f.create)
    decreases |available|
  {
    if available == [] then (w, Done)
    else match available[0]
      case None => (w, Panicked(NilStorageClassEntry))
      case Some(role) =>
        var sc := StorageClassObject(scs.At(role));
        var (w1, err) := CreateIfAbsent(w, f, KeyOf(sc), sc);
        if err.Some? then (w1, Failed(err.value))
        else CreateStorageClassesEffect(w1, f, scs, available[1..])
  }

  /**
   * createStorageClasses never modifies an existing object and creates only
   * listed templates, each as it stands in `scs`.
   */
  lemma {:induction false} CreateStorageClassesFrame(w: World, f: Faults, scs: Templates, available: seq<Option<Role>>)
    requires WellKeyed(w.objects)
    ensures var objects := CreateStorageClassesEffect(w, f, scs, available).0.objects;
      && (forall k :: k in w.objects ==> k in objects && objects[k] == w.objects[k])
      && (forall k :: k in objects && k !in w.objects ==>
            exists role :: Some(role) in available && k == TemplateKey(scs, role) && objects[k] == StorageClassObject(scs.At(role)))
    decreases |available|
  {
    if available != [] && available[0].Some? {
      var sc := StorageClassObject(scs.At(available[0].value));
      var (w1, err) := CreateIfAbsent(w, f, KeyOf(sc), sc);
      if err.None? {
        CreateStorageClassesFrame(w1, f, scs, available[1..]);
        assert forall o :: o in available[1..] ==> o in available;
      }
    }
  }

  /**
   * setRookCSICephFS: reads the operator config; returns at once when the key
   * already holds the wanted "true"/"false"; otherwise writes that one key and
   * issues one Update.
   */
  function SetRookCSICephFSEffect(w: World, f: Faults, c: ClusterMeta, flag: bool): (r: (World, Outcome))
    requires WellKeyed(w.objects)
    ensures WellKeyed(r.0.objects)
    ensures |r.0.calls| > |w.calls| && r.0.calls[..|w.calls| + 1] == w.calls + [GetCall(OperatorConfigKey(c))]
    // no Update when the value already matches, and no change at all
    ensures OperatorConfigKey(c) in w.objects && OperatorConfigKey(c) !in f.get
            && MapGet(w.objects[OperatorConfigKey(c)].data, RookEnableCephFSCSIKey) == FormatBool(flag) ==>
      r == (w.(calls := w.calls + [GetCall(OperatorConfigKey(c))]), Done)
    // otherwise at most one Update, and it changes that one key only
    ensures r.0.calls == w.calls + [GetCall(OperatorConfigKey(c))] || r.0.calls == w.calls + [GetCall(OperatorConfigKey(c)), UpdateCall(OperatorConfigKey(c))]
    ensures r.0.objects == w.objects || (
      && OperatorConfigKey(c) in w.objects && w.objects[OperatorConfigKey(c)].ConfigMap?
      && var cm := w.objects[OperatorConfigKey(c)];
      r.0.objects == w.objects[OperatorConfigKey(c) := cm.(data := cm.data[RookEnableCephFSCSIKey := FormatBool(flag)])])
    // the errors: the operator config is missing, or an injected backend failure
    ensures r.1.Failed? ==>
      r.1.err == NotFound(OperatorConfigKey(c))
      || (r.1.err.BackendError? && r.1.err.key == OperatorConfigKey(c)
          && (OperatorConfigKey(c) in f.get || OperatorConfigKey(c) in f.update))
    // on success the key holds the flag
    ensures r.1.Done? ==>
      OperatorConfigKey(c) in r.0.objects && r.0.objects[OperatorConfigKey(c)].ConfigMap? &&
      MapGet(r.0.objects[OperatorConfigKey(c)].data, RookEnableCephFSCSIKey) == FormatBool(flag)
  {
    var key := OperatorConfigKey(c);
    var (w1, got) := Get(w, f, key);
    if got.Failure? then (w1, Failed(got.error))
    else
      var cm := got.value;
      assert KeyOf(cm) == key;
      var want := FormatBool(flag);
      if MapGet(cm.data, RookEnableCephFSCSIKey) == want then (w1, Done)
      else if cm.data == map[] then (w1, Panicked(NilOperatorConfigData))
      else
        var (w2, err) := Update(w1, f, cm.(data := cm.data[RookEnableCephFSCSIKey := want]));
        (w2, if err.Some? then Failed(err.value) else Done)
  }

  /** What one pass changes besides the status flag: the store and the endpoint. */
  datatype Pass = Pass(world: World, endpoint: string)

  function InitialAcc(p: Pass, scs: Templates): Acc
  {
    Acc(p.world, p.endpoint, scs, [], false, Done)
  }

  /** createExternalStorageClusterResources. */
  function Materialize(p: Pass, f: Faults, templateFault: Option<string>, c: ClusterMeta, data: seq<ExternalResource>): (r: (Pass, Outcome))
    requires WellKeyed(p.world.objects)
    ensures WellKeyed(r.0.world.objects)
  {
    match NewStorageClasses(c, templateFault)
    case Failure(e) => (p, Failed(e))
    case Success(scs) =>
      var a := Steps(InitialAcc(p, scs), data, c, f);
      if !a.status.Done? then (Pass(a.world, a.endpoint), a.status)
      else
        var (w1, out) := CreateStorageClassesEffect(a.world, f, a.scs, a.available);
        if !out.Done? then (Pass(w1, a.endpoint), out)
        else
          var (w2, out2) := SetRookCSICephFSEffect(w1, f, c, a.enableCephFS);
          (Pass(w2, a.endpoint), out2)
  }

  /**
   * ensureExternalStorageClusterResources: the new status flag, the new
   * store and endpoint, and the outcome.
   */
  function Ensure(found: bool, p: Pass, f: Faults, templateFault: Option<string>,
                  decode: Bytes -> Option<seq<ExternalResource>>, c: ClusterMeta): (r: (bool, Pass, Outcome))
    requires WellKeyed(p.world.objects)
    ensures WellKeyed(r.1.world.objects)
    // already bootstrapped: nothing is read or written
    ensures found ==> r == (true, p, Done)
    // the flag is set exactly when the pass succeeds, and never cleared
    ensures !found ==> (r.0 <==> r.2.Done?)
    // success needs the details Secret to be read, its payload to parse, and the pass to succeed on it
    ensures !found && r.2.Done? ==>
      && DetailsKey(c) in p.world.objects && DetailsKey(c) !in f.get
      && p.world.objects[DetailsKey(c)].Secret?
      && var raw := MapGetBytes(p.world.objects[DetailsKey(c)].bytes, ExternalClusterDetailsKey);
      && Unmarshal(raw, decode).Some?
      && Materialize(p.(world := Get(p.world, f, DetailsKey(c)).0), f, templateFault, c, Unmarshal(raw, decode).value) == (r.1, Done)
  {
    if found then (true, p, Done)
    else
      var (w1, got) := Get(p.world, f, DetailsKey(c));
      if got.Failure? then (false, p.(world := w1), Failed(got.error))
      else
        assert KeyOf(got.value) == DetailsKey(c);
        match Unmarshal(MapGetBytes(got.value.bytes, ExternalClusterDetailsKey), decode)
        case None => (false, p.(world := w1), Failed(ParseError))
        case Some(data) =>
          var (p2, out) := Materialize(p.(world := w1), f, templateFault, c, data);
          (out.Done?, p2, out)
  }

  /** The Go loop `for k, v := range data { params[k] = v }`. */
  method MergeParameters(params: map<string, string>, data: map<string, string>) returns (r: map<string, string>)
    ensures r == params + data
  {
    r := params;
    var rest := data.Keys;
    while rest != {}
      invariant rest <= data.Keys
      invariant r.Keys == params.Keys + (data.Keys - rest)
      invariant forall k :: k in r ==> r[k] == if k in data && k !in rest then data[k] else params[k]
      decreases rest
    {
      var k :| k in rest;
      r := r[k := data[k]];
      rest := rest - {k};
    }
  }

  /** The Go loop `for k, v := range d.Data { sec.Data[k] = []byte(v) }`. */
  method SecretData(data: map<string, string>) returns (bytes: map<string, Bytes>)
    ensures bytes == SecretBytes(data)
  {
    bytes := map[];
    var rest := data.Keys;
    while rest != {}
      invariant rest <= data.Keys
      invariant bytes.Keys == data.Keys - rest
      invariant forall k :: k in bytes ==> bytes[k] == Encode(data[k])
      decreases rest
    {
      var k :| k in rest;
      bytes := bytes[k := Encode(data[k])];
      rest := rest - {k};
    }
  }

  /** Once an iteration fails or panics, the remaining descriptors are not applied. */
  lemma {:induction false} StepsHalted(a: Acc, ds: seq<ExternalResource>, c: ClusterMeta, f: Faults)
    requires WellKeyed(a.world.objects)
    ensures !a.status.Done? ==> Steps(a, ds, c, f) == a
    decreases |ds|
  {
    if ds != [] && !a.status.Done? {
      StepsHalted(Step(a, ds[0], c, f), ds[1..], c, f);
    }
  }

  lemma StepsUnfold(a: Acc, ds: seq<ExternalResource>, i: nat, c: ClusterMeta, f: Faults)
    requires WellKeyed(a.world.objects) && i < |ds|
    ensures Steps(a, ds[i..], c, f) == Steps(Step(a, ds[i], c, f), ds[i + 1..], c, f)
  {
    assert ds[i..][0] == ds[i];
    assert ds[i..][1..] == ds[i + 1..];
  }

  /** The StorageCluster resource; the bootstrap writes only its status flag. */
  class StorageCluster {
    const meta: ClusterMeta
    var externalSecretFound: bool  // Status.ExternalSecretFound

    constructor (meta: ClusterMeta, externalSecretFound: bool)
      ensures this.meta == meta && this.externalSecretFound == externalSecretFound
    {
      this.meta := meta;
      this.externalSecretFound := externalSecretFound;
    }
  }

  /** ReconcileStorageCluster as far as the bootstrap uses it. */
  class Reconciler {
    const client: Client
    const templateFault: Option<string>                       // newStorageClasses' error, if any
    const decode: Bytes -> Option<seq<ExternalResource>>      // json.Unmarshal
    var externalRgwEndpoint: string

    function PassState(): Pass
      reads this, client
    {
      Pass(client.State(), externalRgwEndpoint)
    }

    constructor (client: Client, templateFault: Option<string>, decode: Bytes -> Option<seq<ExternalResource>>)
      ensures this.client == client && this.templateFault == templateFault && this.decode == decode
      ensures externalRgwEndpoint == ""
    {
      this.client := client;
      this.templateFault := templateFault;
      this.decode := decode;
      externalRgwEndpoint := "";
    }

    method SetRookCSICephFS(flag: bool, instance: StorageCluster) returns (out: Outcome)
      requires client.Valid()
      modifies client
      ensures client.Valid()
      ensures (client.State(), out) == SetRookCSICephFSEffect(old(client.State()), client.faults, instance.meta, flag)
    {
      var key := OperatorConfigKey(instance.meta);
      var got := client.GetObject(key);
      if got.Failure? {
        return Failed(got.error);
      }
      var rookCephOperatorConfig := got.value;
      assert KeyOf(rookCephOperatorConfig) == key;
      var flagStr := FormatBool(flag);
      if MapGet(rookCephOperatorConfig.data, RookEnableCephFSCSIKey) == flagStr {
        return Done;
      }
      if rookCephOperatorConfig.data == map[] {
        return Panicked(NilOperatorConfigData);
      }
      rookCephOperatorConfig := rookCephOperatorConfig.(data := rookCephOperatorConfig.data[RookEnableCephFSCSIKey := flagStr]);
      var err := client.UpdateObject(rookCephOperatorConfig);
      out := if err.Some? then Failed(err.value) else Done;
    }

    method EnsureExternalStorageClusterResources(instance: StorageCluster) returns (out: Outcome)
      requires client.Valid()
      modifies client, this`externalRgwEndpoint, instance`externalSecretFound
      ensures client.Valid()
      ensures (instance.externalSecretFound, PassState(), out)
        == Ensure(old(instance.externalSecretFound), old(PassState()), client.faults, templateFault, decode, instance.meta)
    {
      if instance.externalSecretFound {
        return Done;
      }
      var found := client.GetObject(DetailsKey(instance.meta));
      if found.Failure? {
        return Failed(found.error);
      }
      assert KeyOf(found.value) == DetailsKey(instance.meta);
      var data := Unmarshal(MapGetBytes(found.value.bytes, ExternalClusterDetailsKey), decode);
      if data.None? {
        return Failed(ParseError);
      }
      out := CreateExternalStorageClusterResources(data.value, instance);
      if !out.Done? {
        return;
      }
      instance.externalSecretFound := true;
    }

    method CreateExternalStorageClusterResources(data: seq<ExternalResource>, instance: StorageCluster) returns (out: Outcome)
      requires client.Valid()
      modifies client, this`externalRgwEndpoint
      ensures client.Valid()
      ensures (PassState(), out) == Materialize(old(PassState()), client.faults, templateFault, instance.meta, data)
    {
      var c := instance.meta;
      var ownerRef := OwnerOf(c);
      var templates := NewStorageClasses(c, templateFault);
      if templates.Failure? {
        return Failed(templates.error);
      }
      var scs := templates.value;
      ghost var start := InitialAcc(old(PassState()), scs);
      var enableRookCSICephFS := false;
      var availableSCs: seq<Option<Role>> := [];
      var i := 0;
      while i < |data|
        invariant 0 <= i <= |data|
        invariant client.Valid()
        invariant Steps(Acc(client.State(), externalRgwEndpoint, scs, availableSCs, enableRookCSICephFS, Done), data[i..], c, client.faults)
          == Steps(start, data, c, client.faults)
      {
        ghost var before := Acc(client.State(), externalRgwEndpoint, scs, availableSCs, enableRookCSICephFS, Done);
        ghost var f := client.faults;
        StepsUnfold(before, data, i, c, f);
        var d := data[i];
        var objectMeta := ObjectMeta(d.name, c.namespace, Some(ownerRef));
        if d.kind == "ConfigMap" {
          var cm := ConfigMap(objectMeta, d.data);
          var err := CreateExternalStorageClusterConfigMap(cm, ObjectKey(ConfigMapKind, c.namespace, d.name));
          assert Step(before, d, c, f) == AfterCreate(before, (client.State(), err));
          if err.Some? {
            StepsHalted(Step(before, d, c, f), data[i + 1..], c, f);
            return Failed(err.value);
          }
        } else if d.kind == "Secret" {
          var bytes := SecretData(d.data);
          var sec := Secret(objectMeta, bytes);
          var err := CreateExternalStorageClusterSecret(sec, ObjectKey(SecretKind, c.namespace, d.name));
          assert Step(before, d, c, f) == AfterCreate(before, (client.State(), err));
          if err.Some? {
            StepsHalted(Step(before, d, c, f), data[i + 1..], c, f);
            return Failed(err.value);
          }
        } else if d.kind == "StorageClass" {
          scs, availableSCs, enableRookCSICephFS, out :=
            MergeStorageClass(d, scs, availableSCs, enableRookCSICephFS, client.State());
          assert Step(before, d, c, f) == SelectStorageClass(before, d);
          if out.Panicked? {
            StepsHalted(Step(before, d, c, f), data[i + 1..], c, f);
            return;
          }
        } else {
          assert Step(before, d, c, f) == before;
        }
        i := i + 1;
      }
      out := CreateStorageClasses(scs, availableSCs);
      if !out.Done? {
        return;
      }
      out := SetRookCSICephFS(enableRookCSICephFS, instance);
    }

    /**
     * The "StorageClass" case of the loop: points `sc` at the template its
     * name selects (recording the rgw endpoint for "ceph-rgw"), copies the
     * data into its parameters and appends it to availableSCs. An unknown
     * name leaves `sc` nil, which panics as soon as there is data to copy.
     */
    method MergeStorageClass(d: ExternalResource, scs: Templates, availableSCs: seq<Option<Role>>,
                             enableRookCSICephFS: bool, ghost w: World)
      returns (scs': Templates, availableSCs': seq<Option<Role>>, enableRookCSICephFS': bool, out: Outcome)
      requires d.kind == "StorageClass"
      modifies this`externalRgwEndpoint
      ensures Acc(w, externalRgwEndpoint, scs', availableSCs', enableRookCSICephFS', out)
        == SelectStorageClass(Acc(w, old(externalRgwEndpoint), scs, availableSCs, enableRookCSICephFS, Done), d)
    {
      scs', availableSCs', enableRookCSICephFS' := scs, availableSCs, enableRookCSICephFS;
      var sc: Option<Role> := None;
      if d.name == CephFsStorageClassName {
        sc := Some(CephFS);
        enableRookCSICephFS' := true;
      } else if d.name == CephRbdStorageClassName {
        sc := Some(Rbd);
      } else if d.name == CephRgwStorageClassName {
        externalRgwEndpoint := ReplaceColons(MapGet(d.data, ExternalCephRgwEndpointKey));
        sc := Some(Rgw);
      }
      assert sc == RoleOf(d.name);
      if sc.None? {
        if d.data != map[] {
          return scs, availableSCs, enableRookCSICephFS, Panicked(NilStorageClassParameters(d.name));
        }
      } else {
        var params := MergeParameters(scs.At(sc.value).parameters, d.data);
        scs' := scs.With(sc.value, scs.At(sc.value).(parameters := params));
      }
      availableSCs' := availableSCs + [sc];
      out := Done;
    }

    method CreateExternalStorageClusterConfigMap(cm: Object, objectKey: ObjectKey) returns (err: Option<Error>)
      requires client.Valid() && cm.ConfigMap? && KeyOf(cm) == objectKey
      modifies client
      ensures client.Valid()
      ensures (client.State(), err) == CreateIfAbsent(old(client.State()), client.faults, objectKey, cm)
    {
      var found := client.GetObject(objectKey);
      if found.Failure? {
        if found.error.NotFound? {
          err := client.CreateObject(cm);
          if err.Some? {
            return err;
          }
        } else {
          return Some(found.error);
        }
      }
      return None;
    }

    method CreateExternalStorageClusterSecret(sec: Object, objectKey: ObjectKey) returns (err: Option<Error>)
      requires client.Valid() && sec.Secret? && KeyOf(sec) == objectKey
      modifies client
      ensures client.Valid()
      ensures (client.State(), err) == CreateIfAbsent(old(client.State()), client.faults, objectKey, sec)
    {
      var found := client.GetObject(objectKey);
      if found.Failure? {
        if found.error.NotFound? {
          err := client.CreateObject(sec);
          if err.Some? {
            return err;
          }
        } else {
          return Some(found.error);
        }
      }
      return None;
    }

    method CreateStorageClasses(scs: Templates, availableSCs: seq<Option<Role>>) returns (out: Outcome)
      requires client.Valid()
      modifies client
      ensures client.Valid()
      ensures (client.State(), out) == CreateStorageClassesEffect(old(client.State()), client.faults, scs, availableSCs)
    {
      var i := 0;
      while i < |availableSCs|
        invariant 0 <= i <= |availableSCs|
        invariant client.Valid()
        invariant CreateStorageClassesEffect(client.State(), client.faults, scs, availableSCs[i..])
          == CreateStorageClassesEffect(old(client.State()), client.faults, scs, availableSCs)
      {
        assert availableSCs[i..][0] == availableSCs[i];
        assert availableSCs[i..][1..] == availableSCs[i + 1..];
        if availableSCs[i].None? {
          return Panicked(NilStorageClassEntry);
        }
        var sc := StorageClassObject(scs.At(availableSCs[i].value));
        var existing := client.GetObject(KeyOf(sc));
        if existing.Failure? {
          if !existing.error.NotFound? {
            return Failed(existing.error);
          }
          var err := client.CreateObject(sc);
          if err.Some? {
            return Failed(err.value);
          }
        }
        i := i + 1;
      }
      return Done;
    }
  }
}
