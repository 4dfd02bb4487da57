/**
 * Properties of the external-mode bootstrap, stated on the pure
 * specification that the `Reconciler` methods are proved to follow.
 */
module ExternalResourcesProperties {
  import opened Wrappers
  import opened Utf8
  import opened Store
  import opened ExternalResources

  predicate NamesCephFS(d: ExternalResource)
  {
    d.kind == "StorageClass" && d.name == CephFsStorageClassName
  }

  /** What template `r` receives from one descriptor. */
  function Contribution(d: ExternalResource, r: Role): map<string, string>
  {
    if IsStorageClassFor(d, r) then d.data else map[]
  }

  /** What an iteration that does not stop the loop does to the loop variables. */
  lemma StepFacts(a: Acc, d: ExternalResource, c: ClusterMeta, f: Faults)
    requires WellKeyed(a.world.objects) && a.status.Done? && Step(a, d, c, f).status.Done?
    ensures Step(a, d, c, f).scs
      == if d.kind == "StorageClass" && RoleOf(d.name).Some? then a.scs.Merge(RoleOf(d.name).value, d.data) else a.scs
    ensures Step(a, d, c, f).available == a.available + (if d.kind == "StorageClass" then [RoleOf(d.name)] else [])
    ensures Step(a, d, c, f).enableCephFS == (a.enableCephFS || NamesCephFS(d))
    ensures Step(a, d, c, f).endpoint
      == if IsStorageClassFor(d, Rgw) then ReplaceColons(MapGet(d.data, ExternalCephRgwEndpointKey)) else a.endpoint
  {
    if d.kind == "StorageClass" {
      assert Step(a, d, c, f) == SelectStorageClass(a, d);
    }
  }

  lemma StepParameters(a: Acc, d: ExternalResource, c: ClusterMeta, f: Faults, r: Role)
    requires WellKeyed(a.world.objects) && a.status.Done? && Step(a, d, c, f).status.Done?
    ensures Step(a, d, c, f).scs.At(r) == a.scs.At(r).(parameters := a.scs.At(r).parameters + Contribution(d, r))
  {
    StepFacts(a, d, c, f);
    if !IsStorageClassFor(d, r) {
      assert a.scs.At(r).parameters + Contribution(d, r) == a.scs.At(r).parameters;
    }
  }

  /**
   * Copying data into a template keeps its name, adds every key of the data
   * with the data's value, keeps the other keys, and leaves the other templates alone.
   */
  lemma TemplatesMerge(scs: Templates, r: Role, data: map<string, string>)
    ensures scs.Merge(r, data).At(r).name == scs.At(r).name
    ensures scs.Merge(r, data).At(r).parameters.Keys == scs.At(r).parameters.Keys + data.Keys
    ensures forall k :: k in scs.Merge(r, data).At(r).parameters ==>
      scs.Merge(r, data).At(r).parameters[k] == if k in data then data[k] else scs.At(r).parameters[k]
    ensures forall o :: o != r ==> scs.Merge(r, data).At(o) == scs.At(o)
  {
  }

  lemma MapUnionAssociative(x: map<string, string>, y: map<string, string>, z: map<string, string>)
    ensures (x + y) + z == x + (y + z)
  {
  }

  lemma MapUnionEmpty(m: map<string, string>)
    ensures map[] + m == m
  {
  }

  /** The loop ends with enableRookCSICephFS set iff some StorageClass descriptor is named "cephfs". */
  lemma {:induction false} StepsCephFSFlag(a: Acc, ds: seq<ExternalResource>, c: ClusterMeta, f: Faults)
    requires WellKeyed(a.world.objects)
    requires Steps(a, ds, c, f).status.Done?
    ensures Steps(a, ds, c, f).enableCephFS <==> a.enableCephFS || exists i :: 0 <= i < |ds| && NamesCephFS(ds[i])
    decreases |ds|
  {
    if ds != [] {
      var b := Step(a, ds[0], c, f);
      StepsHalted(b, ds[1..], c, f);
      StepsCephFSFlag(b, ds[1..], c, f);
      StepFacts(a, ds[0], c, f);
      assert forall i :: 0 <= i < |ds[1..]| ==> ds[1..][i] == ds[i + 1];
      if exists i :: 0 <= i < |ds| && NamesCephFS(ds[i]) {
        var i :| 0 <= i < |ds| && NamesCephFS(ds[i]);
        if i > 0 {
          assert NamesCephFS(ds[1..][i - 1]);
        }
      }
    }
  }

  /**
   * The parameters the StorageClass descriptors for template `r` contribute:
   * every key of their data, the later descriptor winning.
   */
  function MergedParameters(ds: seq<ExternalResource>, r: Role): map<string, string>
  {
    if ds == [] then map[]
    else Contribution(ds[0], r) + MergedParameters(ds[1..], r)
  }

  /** After the loop each template holds its base parameters overlaid with its descriptors' data. */
  lemma {:induction false} StepsParameters(a: Acc, ds: seq<ExternalResource>, c: ClusterMeta, f: Faults, r: Role)
    requires WellKeyed(a.world.objects)
    requires Steps(a, ds, c, f).status.Done?
    ensures Steps(a, ds, c, f).scs.At(r) == a.scs.At(r).(parameters := a.scs.At(r).parameters + MergedParameters(ds, r))
    decreases |ds|
  {
    if ds != [] {
      var b := Step(a, ds[0], c, f);
      StepsHalted(b, ds[1..], c, f);
      StepsParameters(b, ds[1..], c, f, r);
      StepParameters(a, ds[0], c, f, r);
      MapUnionAssociative(a.scs.At(r).parameters, Contribution(ds[0], r), MergedParameters(ds[1..], r));
    }
  }

  /** A key is merged into template `r` iff some descriptor for `r` carries it. */
  lemma {:induction false} MergedParametersKeys(ds: seq<ExternalResource>, r: Role, k: string)
    ensures k in MergedParameters(ds, r) <==> exists j :: 0 <= j < |ds| && IsStorageClassFor(ds[j], r) && k in ds[j].data
    decreases |ds|
  {
    if ds != [] {
      MergedParametersKeys(ds[1..], r, k);
      assert forall j :: 0 <= j < |ds[1..]| ==> ds[1..][j] == ds[j + 1];
      if exists j :: 0 <= j < |ds| && IsStorageClassFor(ds[j], r) && k in ds[j].data {
        var j :| 0 <= j < |ds| && IsStorageClassFor(ds[j], r) && k in ds[j].data;
        if j > 0 {
          assert IsStorageClassFor(ds[1..][j - 1], r) && k in ds[1..][j - 1].data;
        }
      }
    }
  }

  /** The merged value of a key is the one of the last descriptor for `r` that carries it. */
  lemma {:induction false} MergedParametersLastWins(ds: seq<ExternalResource>, r: Role, k: string, j: nat)
    requires j < |ds| && IsStorageClassFor(ds[j], r) && k in ds[j].data
    requires forall l :: j < l < |ds| && IsStorageClassFor(ds[l], r) ==> k !in ds[l].data
    ensures k in MergedParameters(ds, r) && MergedParameters(ds, r)[k] == ds[j].data[k]
    decreases |ds|
  {
    if j == 0 {
      MergedParametersKeys(ds[1..], r, k);
      forall l | 0 <= l < |ds[1..]| && IsStorageClassFor(ds[1..][l], r)
        ensures k !in ds[1..][l].data
      {
        assert ds[1..][l] == ds[l + 1];
      }
    } else {
      forall l | j - 1 < l < |ds[1..]| && IsStorageClassFor(ds[1..][l], r)
        ensures k !in ds[1..][l].data
      {
        assert ds[1..][l] == ds[l + 1];
      }
      MergedParametersLastWins(ds[1..], r, k, j - 1);
    }
  }

  /** availableSCs: one entry per StorageClass descriptor, in bundle order (None for an unknown name). */
  function DescribedStorageClasses(ds: seq<ExternalResource>): seq<Option<Role>>
  {
    if ds == [] then []
    else (if ds[0].kind == "StorageClass" then [RoleOf(ds[0].name)] else []) + DescribedStorageClasses(ds[1..])
  }

  lemma {:induction false} StepsAvailable(a: Acc, ds: seq<ExternalResource>, c: ClusterMeta, f: Faults)
    requires WellKeyed(a.world.objects)
    requires Steps(a, ds, c, f).status.Done?
    ensures Steps(a, ds, c, f).available == a.available + DescribedStorageClasses(ds)
    decreases |ds|
  {
    if ds != [] {
      var b := Step(a, ds[0], c, f);
      StepsHalted(a, ds, c, f);
      StepsHalted(b, ds[1..], c, f);
      StepsAvailable(b, ds[1..], c, f);
      StepFacts(a, ds[0], c, f);
      var x := if ds[0].kind == "StorageClass" then [RoleOf(ds[0].name)] else [];
      assert DescribedStorageClasses(ds) == x + DescribedStorageClasses(ds[1..]);
      assert (a.available + x) + DescribedStorageClasses(ds[1..]) == a.available + (x + DescribedStorageClasses(ds[1..]));
    }
  }

  /** A template is listed for creation iff a StorageClass descriptor names it. */
  lemma {:induction false} DescribedStorageClassesRoles(ds: seq<ExternalResource>, r: Role)
    ensures Some(r) in DescribedStorageClasses(ds) <==> exists i :: 0 <= i < |ds| && IsStorageClassFor(ds[i], r)
    decreases |ds|
  {
    if ds != [] {
      DescribedStorageClassesRoles(ds[1..], r);
      assert forall i :: 0 <= i < |ds[1..]| ==> ds[1..][i] == ds[i + 1];
      if exists i :: 0 <= i < |ds| && IsStorageClassFor(ds[i], r) {
        var i :| 0 <= i < |ds| && IsStorageClassFor(ds[i], r);
        if i > 0 {
          assert IsStorageClassFor(ds[1..][i - 1], r);
        }
      }
    }
  }

  lemma {:induction false} StepsAppend(a: Acc, xs: seq<ExternalResource>, ys: seq<ExternalResource>, c: ClusterMeta, f: Faults)
    requires WellKeyed(a.world.objects)
    ensures Steps(a, xs + ys, c, f) == Steps(Steps(a, xs, c, f), ys, c, f)
    decreases |xs|
  {
    if xs == [] {
      assert xs + ys == ys;
    } else {
      assert (xs + ys)[0] == xs[0];
      assert (xs + ys)[1..] == xs[1..] + ys;
      StepsAppend(Step(a, xs[0], c, f), xs[1..], ys, c, f);
    }
  }

  /**
   * When descriptor i is the first whose ConfigMap or Secret creation fails
   * (or that panics), the pass ends right there: later descriptors are not
   * applied, and neither StorageClass creation nor the flag write happens.
   */
  lemma MaterializeStopsAtFirstFailure(p: Pass, f: Faults, templateFault: Option<string>, c: ClusterMeta,
                                       data: seq<ExternalResource>, i: nat)
    requires WellKeyed(p.world.objects) && templateFault.None? && i < |data|
    requires Steps(InitialAcc(p, NewStorageClasses(c, None).value), data[..i], c, f).status.Done?
    requires !Step(Steps(InitialAcc(p, NewStorageClasses(c, None).value), data[..i], c, f), data[i], c, f).status.Done?
    ensures var b := Step(Steps(InitialAcc(p, NewStorageClasses(c, None).value), data[..i], c, f), data[i], c, f);
      Materialize(p, f, templateFault, c, data) == (Pass(b.world, b.endpoint), b.status)
  {
    var start := InitialAcc(p, NewStorageClasses(c, None).value);
    var a := Steps(start, data[..i], c, f);
    var b := Step(a, data[i], c, f);
    assert data == data[..i] + data[i..];
    StepsAppend(start, data[..i], data[i..], c, f);
    StepsUnfold(a, data, i, c, f);
    assert data[..i][..] == data[..i];
    StepsHalted(b, data[i + 1..], c, f);
  }

  lemma SecretBytesRoundTrip(data: map<string, string>)
    ensures forall k :: k in SecretBytes(data) ==> Decode(SecretBytes(data)[k]) == Some(data[k])
  {
    forall k | k in SecretBytes(data)
      ensures Decode(SecretBytes(data)[k]) == Some(data[k])
    {
      DecodeEncode(data[k]);
    }
  }

  /** Applying create-if-absent twice leaves the store as applying it once. */
  lemma CreateIfAbsentIdempotent(w: World, f: Faults, key: ObjectKey, obj: Object)
    requires WellKeyed(w.objects) && KeyOf(obj) == key
    ensures var once := CreateIfAbsent(w, f, key, obj).0;
      CreateIfAbsent(once, f, key, obj).0.objects == once.objects
  {
  }

  /**
   * After a successful pass the operator config holds ROOK_CSI_ENABLE_CEPHFS
   * = "true" if some StorageClass descriptor is named "cephfs", else "false".
   */
  lemma MaterializeSetsCephFSFlag(p: Pass, f: Faults, templateFault: Option<string>, c: ClusterMeta, data: seq<ExternalResource>)
    requires WellKeyed(p.world.objects)
    requires Materialize(p, f, templateFault, c, data).1.Done?
    ensures var objects := Materialize(p, f, templateFault, c, data).0.world.objects;
      && OperatorConfigKey(c) in objects && objects[OperatorConfigKey(c)].ConfigMap?
      && MapGet(objects[OperatorConfigKey(c)].data, RookEnableCephFSCSIKey)
         == FormatBool(exists i :: 0 <= i < |data| && NamesCephFS(data[i]))
  {
    var scs := NewStorageClasses(c, templateFault).value;
    StepsCephFSFlag(InitialAcc(p, scs), data, c, f);
  }

  /** Without a "ceph-rgw" StorageClass descriptor the endpoint is left as it was. */
  lemma {:induction false} StepsEndpointUnchanged(a: Acc, ds: seq<ExternalResource>, c: ClusterMeta, f: Faults)
    requires WellKeyed(a.world.objects)
    requires Steps(a, ds, c, f).status.Done?
    requires forall i :: 0 <= i < |ds| ==> !IsStorageClassFor(ds[i], Rgw)
    ensures Steps(a, ds, c, f).endpoint == a.endpoint
    decreases |ds|
  {
    if ds != [] {
      var b := Step(a, ds[0], c, f);
      StepsHalted(b, ds[1..], c, f);
      StepFacts(a, ds[0], c, f);
      assert forall i :: 0 <= i < |ds[1..]| ==> ds[1..][i] == ds[i + 1];
      StepsEndpointUnchanged(b, ds[1..], c, f);
    }
  }

  /**
   * The endpoint left by the loop is the "endpoint" value of the last
   * "ceph-rgw" StorageClass descriptor, with every colon replaced by '_'.
   */
  lemma {:induction false} StepsEndpoint(a: Acc, ds: seq<ExternalResource>, c: ClusterMeta, f: Faults, j: nat)
    requires WellKeyed(a.world.objects)
    requires Steps(a, ds, c, f).status.Done?
    requires j < |ds| && IsStorageClassFor(ds[j], Rgw)
    requires forall l :: j < l < |ds| ==> !IsStorageClassFor(ds[l], Rgw)
    ensures Steps(a, ds, c, f).endpoint == ReplaceColons(MapGet(ds[j].data, ExternalCephRgwEndpointKey))
    ensures ':' !in Steps(a, ds, c, f).endpoint
    ensures |Steps(a, ds, c, f).endpoint| == |MapGet(ds[j].data, ExternalCephRgwEndpointKey)|
    decreases |ds|
  {
    var b := Step(a, ds[0], c, f);
    StepsHalted(b, ds[1..], c, f);
    StepFacts(a, ds[0], c, f);
    assert forall i :: 0 <= i < |ds[1..]| ==> ds[1..][i] == ds[i + 1];
    if j == 0 {
      StepsEndpointUnchanged(b, ds[1..], c, f);
    } else {
      StepsEndpoint(b, ds[1..], c, f, j - 1);
    }
  }

  /** A created ConfigMap or Secret carries the cluster as its owner. */
  predicate OwnedChild(o: Object, c: ClusterMeta)
  {
    (o.ConfigMap? || o.Secret?) && o.meta.owner == Some(OwnerOf(c))
  }

  /**
   * The object the loop creates for a ConfigMap or Secret descriptor: the
   * data verbatim for a ConfigMap, each value's bytes for a Secret.
   */
  function ChildObject(d: ExternalResource, c: ClusterMeta): (o: Object)
    requires IsChild(d)
    ensures OwnedChild(o, c) && KeyOf(o) == ChildKey(d, c)
  {
    if d.kind == "ConfigMap" then ConfigMap(DescriptorMeta(d, c), d.data)
    else Secret(DescriptorMeta(d, c), SecretBytes(d.data))
  }

  /** Descriptor i is the first ConfigMap or Secret descriptor with its kind and name. */
  predicate FirstChild(ds: seq<ExternalResource>, i: nat, c: ClusterMeta)
    requires i < |ds|
  {
    IsChild(ds[i]) && forall j :: 0 <= j < i && IsChild(ds[j]) ==> ChildKey(ds[j], c) != ChildKey(ds[i], c)
  }

  /** One iteration keeps every existing object and adds at most the descriptor's own ConfigMap or Secret. */
  lemma StepWorld(a: Acc, d: ExternalResource, c: ClusterMeta, f: Faults)
    requires WellKeyed(a.world.objects)
    ensures var objects := Step(a, d, c, f).world.objects;
      && (forall k :: k in a.world.objects ==> k in objects && objects[k] == a.world.objects[k])
      && (forall k :: k in objects && k !in a.world.objects ==>
            IsChild(d) && k == ChildKey(d, c) && objects[k] == ChildObject(d, c))
  {
    if a.status.Done? && IsChild(d) {
      assert Step(a, d, c, f).world == CreateIfAbsent(a.world, f, ChildKey(d, c), ChildObject(d, c)).0;
    } else if a.status.Done? && d.kind == "StorageClass" {
      assert Step(a, d, c, f).world == a.world;
    }
  }

  /**
   * The loop keeps every existing object, and each object it adds is the
   * ConfigMap or Secret of the first descriptor with that kind and name.
   */
  lemma {:induction false} StepsWorld(a: Acc, ds: seq<ExternalResource>, c: ClusterMeta, f: Faults)
    requires WellKeyed(a.world.objects)
    ensures var objects := Steps(a, ds, c, f).world.objects;
      && (forall k :: k in a.world.objects ==> k in objects && objects[k] == a.world.objects[k])
      && (forall k :: k in objects && k !in a.world.objects ==>
            && k.kind != StorageClassKind
            && exists i :: 0 <= i < |ds| && FirstChild(ds, i, c) && k == ChildKey(ds[i], c) && objects[k] == ChildObject(ds[i], c))
    decreases |ds|
  {
    if ds != [] {
      var b := Step(a, ds[0], c, f);
      var objects := Steps(a, ds, c, f).world.objects;
      StepWorld(a, ds[0], c, f);
      StepsWorld(b, ds[1..], c, f);
      StepsHalted(a, ds, c, f);
      StepsHalted(b, ds[1..], c, f);
      forall k | k in objects && k !in a.world.objects
        ensures exists i :: 0 <= i < |ds| && FirstChild(ds, i, c) && k == ChildKey(ds[i], c) && objects[k] == ChildObject(ds[i], c)
      {
        if k in b.world.objects {
          assert FirstChild(ds, 0, c) && k == ChildKey(ds[0], c) && objects[k] == ChildObject(ds[0], c);
        } else {
          var i :| 0 <= i < |ds[1..]| && FirstChild(ds[1..], i, c) && k == ChildKey(ds[1..][i], c) && objects[k] == ChildObject(ds[1..][i], c);
          if IsChild(ds[0]) && b.status.Done? {
            StepChildPresent(a, ds[0], c, f);
          }
          forall j | 0 <= j < i + 1 && IsChild(ds[j])
            ensures ChildKey(ds[j], c) != ChildKey(ds[i + 1], c)
          {
            if j > 0 {
              assert ds[j] == ds[1..][j - 1];
            }
          }
          assert ds[i + 1] == ds[1..][i];
          assert FirstChild(ds, i + 1, c);
        }
      }
    }
  }

  /** Where a StorageClass object of a completed pass comes from: the store after the steps, or the template creation. */
  lemma {:induction false} MaterializeStorageClassSource(p: Pass, f: Faults, templateFault: Option<string>, c: ClusterMeta,
                                      data: seq<ExternalResource>, k: ObjectKey)
    requires WellKeyed(p.world.objects) && templateFault.None?
    requires k in Materialize(p, f, templateFault, c, data).0.world.objects && k !in p.world.objects
    requires k.kind == StorageClassKind
    ensures var a := Steps(InitialAcc(p, NewStorageClasses(c, templateFault).value), data, c, f);
      var objects := Materialize(p, f, templateFault, c, data).0.world.objects;
      && a.status.Done? && k !in a.world.objects
      && var w1 := CreateStorageClassesEffect(a.world, f, a.scs, a.available).0;
      k in w1.objects && objects[k] == w1.objects[k]
  {
    var a := Steps(InitialAcc(p, NewStorageClasses(c, templateFault).value), data, c, f);
    StepsWorld(InitialAcc(p, NewStorageClasses(c, templateFault).value), data, c, f);
    if a.status.Done? {
      var (w1, out) := CreateStorageClassesEffect(a.world, f, a.scs, a.available);
      if out.Done? {
        var (w2, _) := SetRookCSICephFSEffect(w1, f, c, a.enableCephFS);
        assert k != OperatorConfigKey(c);
      }
    }
  }

  /**
   * A StorageClass that a pass creates is the template of a role some
   * StorageClass descriptor names, named "<cluster>-<descriptor name>", and
   * carries exactly the merged data of the descriptors for that role.
   */
  lemma {:induction false} MaterializeCreatesOnlyDescribedStorageClasses(p: Pass, f: Faults, templateFault: Option<string>, c: ClusterMeta,
                                                      data: seq<ExternalResource>, k: ObjectKey)
    requires WellKeyed(p.world.objects)
    requires k in Materialize(p, f, templateFault, c, data).0.world.objects && k !in p.world.objects
    requires k.kind == StorageClassKind
    ensures exists i :: (0 <= i < |data| && data[i].kind == "StorageClass" && RoleOf(data[i].name).Some?
      && k == ObjectKey(StorageClassKind, "", c.name + "-" + data[i].name)
      && Materialize(p, f, templateFault, c, data).0.world.objects[k]
         == StorageClassObject(StorageClass(k.name, MergedParameters(data, RoleOf(data[i].name).value))))
  {
    if templateFault.Some? {
      assert false;
    }
    MaterializeStorageClassSource(p, f, templateFault, c, data, k);
    var i := StepsCreateDescribed(p, f, c, data, k);
    assert Materialize(p, f, templateFault, c, data).0.world.objects[k] == StorageClassObject(StorageClass(k.name, MergedParameters(data, RoleOf(data[i].name).value)));
  }

  /** The template creation after a completed loop adds only templates of described roles, with their merged parameters. */
  lemma {:induction false} StepsCreateDescribed(p: Pass, f: Faults, c: ClusterMeta, data: seq<ExternalResource>, k: ObjectKey) returns (i: nat)
    requires WellKeyed(p.world.objects)
    requires var a := Steps(InitialAcc(p, NewStorageClasses(c, None).value), data, c, f);
      && a.status.Done? && k !in a.world.objects
      && k in CreateStorageClassesEffect(a.world, f, a.scs, a.available).0.objects
    ensures var a := Steps(InitialAcc(p, NewStorageClasses(c, None).value), data, c, f);
      && i < |data| && data[i].kind == "StorageClass" && RoleOf(data[i].name).Some?
      && k == ObjectKey(StorageClassKind, "", c.name + "-" + data[i].name)
      && CreateStorageClassesEffect(a.world, f, a.scs, a.available).0.objects[k]
         == StorageClassObject(StorageClass(k.name, MergedParameters(data, RoleOf(data[i].name).value)))
  {
    var scs := NewStorageClasses(c, None).value;
    var a := Steps(InitialAcc(p, scs), data, c, f);
    var w1 := CreateStorageClassesEffect(a.world, f, a.scs, a.available).0;
    CreateStorageClassesFrame(a.world, f, a.scs, a.available);
    var role :| Some(role) in a.available && k == TemplateKey(a.scs, role) && w1.objects[k] == StorageClassObject(a.scs.At(role));
    StepsAvailable(InitialAcc(p, scs), data, c, f);
    DescribedStorageClassesRoles(data, role);
    i :| 0 <= i < |data| && IsStorageClassFor(data[i], role);
    StepsParameters(InitialAcc(p, scs), data, c, f, role);
    TemplateName(c, data[i].name, role);
    var merged := MergedParameters(data, role);
    MapUnionEmpty(merged);
    assert a.scs.At(role) == scs.At(role).(parameters := map[] + merged);
  }

  /** The template for a role is named after the cluster and the StorageClass name of that role. */
  lemma TemplateName(c: ClusterMeta, name: string, role: Role)
    requires RoleOf(name) == Some(role)
    ensures NewStorageClasses(c, None).value.At(role) == StorageClass(c.name + "-" + name, map[])
  {
  }

  const NoFaults := Faults(map[], map[], map[])

  /** With a healthy backend no ConfigMap or Secret creation fails, whatever already exists. */
  lemma {:induction false} StepsHealthy(a: Acc, ds: seq<ExternalResource>, c: ClusterMeta)
    requires WellKeyed(a.world.objects) && !a.status.Failed?
    ensures !Steps(a, ds, c, NoFaults).status.Failed?
    decreases |ds|
  {
    if ds != [] {
      StepsHealthy(Step(a, ds[0], c, NoFaults), ds[1..], c);
    }
  }

  /**
   * A retry against a healthy backend succeeds whatever an earlier failed
   * pass left behind; it can only fail when the operator config is missing,
   * or panic on the nil pointers the source dereferences.
   */
  lemma MaterializeHealthy(p: Pass, c: ClusterMeta, data: seq<ExternalResource>)
    requires WellKeyed(p.world.objects)
    ensures var out := Materialize(p, NoFaults, None, c, data).1;
      out.Failed? ==> out.err == NotFound(OperatorConfigKey(c))
  {
    StepsHealthy(InitialAcc(p, NewStorageClasses(c, None).value), data, c);
  }

  predicate IsChild(d: ExternalResource)
  {
    d.kind == "ConfigMap" || d.kind == "Secret"
  }

  /** The key under which the loop creates the ConfigMap or Secret of a descriptor. */
  function ChildKey(d: ExternalResource, c: ClusterMeta): ObjectKey
  {
    ObjectKey(if d.kind == "ConfigMap" then ConfigMapKind else SecretKind, c.namespace, d.name)
  }

  predicate ChildrenPresent(objects: map<ObjectKey, Object>, ds: seq<ExternalResource>, c: ClusterMeta)
  {
    forall i :: 0 <= i < |ds| && IsChild(ds[i]) ==> ChildKey(ds[i], c) in objects
  }

  /**
   * A store the bootstrap has completed on: every described ConfigMap and
   * Secret, every described StorageClass template, and the CephFS flag in
   * the operator config are in place.
   */
  predicate Settled(objects: map<ObjectKey, Object>, data: seq<ExternalResource>, c: ClusterMeta)
  {
    && ChildrenPresent(objects, data, c)
    && (forall role :: Some(role) in DescribedStorageClasses(data) ==> TemplateKey(NewStorageClasses(c, None).value, role) in objects)
    && OperatorConfigKey(c) in objects && objects[OperatorConfigKey(c)].ConfigMap?
    && MapGet(objects[OperatorConfigKey(c)].data, RookEnableCephFSCSIKey)
       == FormatBool(exists i :: 0 <= i < |data| && NamesCephFS(data[i]))
  }

  /** An iteration that completes leaves its ConfigMap or Secret in the store. */
  lemma StepChildPresent(a: Acc, d: ExternalResource, c: ClusterMeta, f: Faults)
    requires WellKeyed(a.world.objects) && a.status.Done? && Step(a, d, c, f).status.Done? && IsChild(d)
    ensures ChildKey(d, c) in Step(a, d, c, f).world.objects
  {
    if d.kind == "ConfigMap" {
      assert Step(a, d, c, f) == AfterCreate(a, CreateIfAbsent(a.world, f, ChildKey(d, c), ConfigMap(DescriptorMeta(d, c), d.data)));
    } else {
      assert Step(a, d, c, f) == AfterCreate(a, CreateIfAbsent(a.world, f, ChildKey(d, c), Secret(DescriptorMeta(d, c), SecretBytes(d.data))));
    }
  }

  /** A loop that completes leaves every described ConfigMap and Secret in the store. */
  lemma {:induction false} StepsChildrenPresent(a: Acc, ds: seq<ExternalResource>, c: ClusterMeta, f: Faults)
    requires WellKeyed(a.world.objects)
    requires Steps(a, ds, c, f).status.Done?
    ensures ChildrenPresent(Steps(a, ds, c, f).world.objects, ds, c)
    decreases |ds|
  {
    if ds != [] {
      StepsHalted(a, ds, c, f);
      var b := Step(a, ds[0], c, f);
      StepsHalted(b, ds[1..], c, f);
      StepsChildrenPresent(b, ds[1..], c, f);
      StepsWorld(b, ds[1..], c, f);
      if IsChild(ds[0]) {
        StepChildPresent(a, ds[0], c, f);
      }
      forall i | 0 <= i < |ds| && IsChild(ds[i])
        ensures ChildKey(ds[i], c) in Steps(a, ds, c, f).world.objects
      {
        if i > 0 {
          assert ds[1..][i - 1] == ds[i];
        }
      }
    }
  }

  /** An iteration whose ConfigMap or Secret already exists changes no object. */
  lemma StepIdle(a: Acc, d: ExternalResource, c: ClusterMeta, f: Faults)
    requires WellKeyed(a.world.objects)
    requires IsChild(d) ==> ChildKey(d, c) in a.world.objects
    ensures Step(a, d, c, f).world.objects == a.world.objects
  {
    if a.status.Done? {
      if d.kind == "ConfigMap" {
        assert Step(a, d, c, f) == AfterCreate(a, CreateIfAbsent(a.world, f, ChildKey(d, c), ConfigMap(DescriptorMeta(d, c), d.data)));
      } else if d.kind == "Secret" {
        assert Step(a, d, c, f) == AfterCreate(a, CreateIfAbsent(a.world, f, ChildKey(d, c), Secret(DescriptorMeta(d, c), SecretBytes(d.data))));
      }
    }
  }

  /** When every described ConfigMap and Secret exists, the loop changes no object, whatever fails. */
  lemma {:induction false} StepsIdle(a: Acc, ds: seq<ExternalResource>, c: ClusterMeta, f: Faults)
    requires WellKeyed(a.world.objects)
    requires ChildrenPresent(a.world.objects, ds, c)
    ensures Steps(a, ds, c, f).world.objects == a.world.objects
    decreases |ds|
  {
    if ds != [] {
      StepIdle(a, ds[0], c, f);
      var b := Step(a, ds[0], c, f);
      forall i | 0 <= i < |ds[1..]| && IsChild(ds[1..][i])
        ensures ChildKey(ds[1..][i], c) in b.world.objects
      {
        assert ds[1..][i] == ds[i + 1];
      }
      StepsIdle(b, ds[1..], c, f);
    }
  }

  /** createStorageClasses, when it completes, leaves every listed template in the store. */
  lemma {:induction false} CreateStorageClassesPresent(w: World, f: Faults, scs: Templates, available: seq<Option<Role>>)
    requires WellKeyed(w.objects)
    requires CreateStorageClassesEffect(w, f, scs, available).1.Done?
    ensures forall role :: Some(role) in available ==> TemplateKey(scs, role) in CreateStorageClassesEffect(w, f, scs, available).0.objects
    decreases |available|
  {
    if available != [] {
      var role0 := available[0].value;
      var sc := StorageClassObject(scs.At(role0));
      var w1 := CreateIfAbsent(w, f, KeyOf(sc), sc).0;
      CreateStorageClassesPresent(w1, f, scs, available[1..]);
      CreateStorageClassesFrame(w1, f, scs, available[1..]);
      forall role | Some(role) in available
        ensures TemplateKey(scs, role) in CreateStorageClassesEffect(w, f, scs, available).0.objects
      {
        if role != role0 {
          assert Some(role) in available[1..];
        }
      }
    }
  }

  /** When every listed template exists, createStorageClasses changes no object, whatever fails. */
  lemma {:induction false} CreateStorageClassesIdle(w: World, f: Faults, scs: Templates, available: seq<Option<Role>>)
    requires WellKeyed(w.objects)
    requires forall role :: Some(role) in available ==> TemplateKey(scs, role) in w.objects
    ensures CreateStorageClassesEffect(w, f, scs, available).0.objects == w.objects
    decreases |available|
  {
    if available != [] && available[0].Some? {
      var sc := StorageClassObject(scs.At(available[0].value));
      var w1 := CreateIfAbsent(w, f, KeyOf(sc), sc).0;
      assert forall o :: o in available[1..] ==> o in available;
      CreateStorageClassesIdle(w1, f, scs, available[1..]);
    }
  }

  /** The loop renames no template: the keys of the templates it leaves are those it started with. */
  lemma StepsTemplateKeys(a: Acc, ds: seq<ExternalResource>, c: ClusterMeta, f: Faults, r: Role)
    requires WellKeyed(a.world.objects)
    requires Steps(a, ds, c, f).status.Done?
    ensures TemplateKey(Steps(a, ds, c, f).scs, r) == TemplateKey(a.scs, r)
  {
    StepsParameters(a, ds, c, f, r);
  }

  /** A pass over a settled store changes no object, whatever fails. */
  lemma MaterializeSettledIdle(q: Pass, f: Faults, templateFault: Option<string>, c: ClusterMeta, data: seq<ExternalResource>)
    requires WellKeyed(q.world.objects)
    requires Settled(q.world.objects, data, c)
    ensures Materialize(q, f, templateFault, c, data).0.world.objects == q.world.objects
  {
    if templateFault.None? {
      var scs := NewStorageClasses(c, None).value;
      var a := Steps(InitialAcc(q, scs), data, c, f);
      StepsIdle(InitialAcc(q, scs), data, c, f);
      if a.status.Done? {
        StepsAvailable(InitialAcc(q, scs), data, c, f);
        forall role | Some(role) in a.available
          ensures TemplateKey(a.scs, role) in a.world.objects
        {
          StepsTemplateKeys(InitialAcc(q, scs), data, c, f, role);
        }
        CreateStorageClassesIdle(a.world, f, a.scs, a.available);
        var w1 := CreateStorageClassesEffect(a.world, f, a.scs, a.available).0;
        StepsCephFSFlag(InitialAcc(q, scs), data, c, f);
        assert w1.objects == q.world.objects;
      }
    }
  }

  /** A pass that succeeds leaves the store settled. */
  lemma MaterializeSettles(p: Pass, f: Faults, templateFault: Option<string>, c: ClusterMeta, data: seq<ExternalResource>)
    requires WellKeyed(p.world.objects)
    requires Materialize(p, f, templateFault, c, data).1.Done?
    ensures Settled(Materialize(p, f, templateFault, c, data).0.world.objects, data, c)
  {
    var scs := NewStorageClasses(c, templateFault).value;
    var a := Steps(InitialAcc(p, scs), data, c, f);
    var w1 := CreateStorageClassesEffect(a.world, f, a.scs, a.available).0;
    var w2 := SetRookCSICephFSEffect(w1, f, c, a.enableCephFS).0;
    StepsChildrenPresent(InitialAcc(p, scs), data, c, f);
    CreateStorageClassesFrame(a.world, f, a.scs, a.available);
    CreateStorageClassesPresent(a.world, f, a.scs, a.available);
    StepsAvailable(InitialAcc(p, scs), data, c, f);
    forall role | Some(role) in DescribedStorageClasses(data)
      ensures TemplateKey(scs, role) in w2.objects
    {
      StepsTemplateKeys(InitialAcc(p, scs), data, c, f, role);
    }
    MaterializeSetsCephFSFlag(p, f, templateFault, c, data);
  }

  /**
   * Running the bootstrap again after it succeeded changes no object, whatever
   * the second run meets: create-if-absent finds everything, and the flag
   * already holds the wanted value.
   */
  lemma MaterializeIdempotent(p: Pass, f1: Faults, f2: Faults, templateFault: Option<string>, c: ClusterMeta, data: seq<ExternalResource>)
    requires WellKeyed(p.world.objects)
    requires Materialize(p, f1, templateFault, c, data).1.Done?
    ensures var p1 := Materialize(p, f1, templateFault, c, data).0;
      Materialize(p1, f2, templateFault, c, data).0.world.objects == p1.world.objects
  {
    MaterializeSettles(p, f1, templateFault, c, data);
    MaterializeSettledIdle(Materialize(p, f1, templateFault, c, data).0, f2, templateFault, c, data);
  }

  /** A StorageClass descriptor of an unknown name puts a nil entry into availableSCs. */
  lemma {:induction false} DescribedStorageClassesUnknown(ds: seq<ExternalResource>, i: nat)
    requires i < |ds| && ds[i].kind == "StorageClass" && RoleOf(ds[i].name).None?
    ensures None in DescribedStorageClasses(ds)
    decreases |ds|
  {
    if i > 0 {
      assert ds[1..][i - 1] == ds[i];
      DescribedStorageClassesUnknown(ds[1..], i - 1);
    }
  }

  /** createStorageClasses never completes over a list holding a nil entry. */
  lemma {:induction false} CreateStorageClassesNil(w: World, f: Faults, scs: Templates, available: seq<Option<Role>>)
    requires WellKeyed(w.objects) && None in available
    ensures !CreateStorageClassesEffect(w, f, scs, available).1.Done?
    decreases |available|
  {
    if available[0].Some? {
      var sc := StorageClassObject(scs.At(available[0].value));
      var w1 := CreateIfAbsent(w, f, KeyOf(sc), sc).0;
      CreateStorageClassesNil(w1, f, scs, available[1..]);
    }
  }

  /**
   * A StorageClass descriptor whose name is none of the three known ones
   * never lets the bootstrap succeed: the nil template pointer it selects
   * panics, at the data copy or in createStorageClasses, unless an earlier
   * error ends the pass.
   */
  lemma MaterializeUnknownStorageClassFails(p: Pass, f: Faults, templateFault: Option<string>, c: ClusterMeta,
                                            data: seq<ExternalResource>, i: nat)
    requires WellKeyed(p.world.objects)
    requires i < |data| && data[i].kind == "StorageClass" && RoleOf(data[i].name).None?
    ensures !Materialize(p, f, templateFault, c, data).1.Done?
  {
    if templateFault.None? {
      var scs := NewStorageClasses(c, None).value;
      var a := Steps(InitialAcc(p, scs), data, c, f);
      if a.status.Done? {
        StepsAvailable(InitialAcc(p, scs), data, c, f);
        DescribedStorageClassesUnknown(data, i);
        CreateStorageClassesNil(a.world, f, a.scs, a.available);
      }
    }
  }
}
