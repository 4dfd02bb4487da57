/**
 * The Kubernetes client as seen by the external-mode bootstrap: an object
 * store keyed by (kind, namespace, name), a fault plan that makes chosen
 * Get, Create and Update calls fail with a backend error, and a log of the
 * calls issued. Pure functions give the semantics of each call on a
 * `World` value; the `Client` class performs them in place.
 */
module Store {
  import opened Wrappers
  import opened Utf8

  datatype Kind = ConfigMapKind | SecretKind | StorageClassKind

  /** Identity of an object. Cluster-scoped objects have namespace "". */
  datatype ObjectKey = ObjectKey(kind: Kind, namespace: string, name: string)

  /** The owner reference attached to namespaced children of a StorageCluster. */
  datatype OwnerRef = OwnerRef(uid: string, name: string)

  datatype ObjectMeta = ObjectMeta(name: string, namespace: string, owner: Option<OwnerRef>)

  datatype StorageClass = StorageClass(name: string, parameters: map<string, string>)

  datatype Object =
    | ConfigMap(meta: ObjectMeta, data: map<string, string>)
    | Secret(meta: ObjectMeta, bytes: map<string, Bytes>)
    | StorageClassObject(sc: StorageClass)

  function KeyOf(o: Object): ObjectKey
  {
    match o
    case ConfigMap(meta, _) => ObjectKey(ConfigMapKind, meta.namespace, meta.name)
    case Secret(meta, _) => ObjectKey(SecretKind, meta.namespace, meta.name)
    case StorageClassObject(sc) => ObjectKey(StorageClassKind, "", sc.name)
  }

  datatype Error =
    | NotFound(key: ObjectKey)
    | AlreadyExists(key: ObjectKey)
    | BackendError(key: ObjectKey, reason: string)
    | ParseError
    | TemplateError(reason: string)

  /** Injected failures: a key listed under an operation makes that operation fail on it. */
  datatype Faults = Faults(get: map<ObjectKey, string>, create: map<ObjectKey, string>, update: map<ObjectKey, string>)

  datatype Call = GetCall(key: ObjectKey) | CreateCall(key: ObjectKey) | UpdateCall(key: ObjectKey)

  datatype World = World(objects: map<ObjectKey, Object>, calls: seq<Call>)

  /** Every stored object sits under its own key. */
  predicate WellKeyed(objects: map<ObjectKey, Object>)
  {
    forall k :: k in objects ==> KeyOf(objects[k]) == k
  }

  function Get(w: World, f: Faults, key: ObjectKey): (r: (World, Result<Object, Error>))
    ensures r.0 == w.(calls := w.calls + [GetCall(key)])
    ensures r.1.Success? <==> key !in f.get && key in w.objects
    ensures r.1.Success? ==> r.1.value == w.objects[key]
    ensures r.1.Failure? && r.1.error.NotFound? <==> key !in f.get && key !in w.objects
  {
    var w' := w.(calls := w.calls + [GetCall(key)]);
    if key in f.get then (w', Failure(BackendError(key, f.get[key])))
    else if key in w.objects then (w', Success(w.objects[key]))
    else (w', Failure(NotFound(key)))
  }

  function Create(w: World, f: Faults, obj: Object): (r: (World, Option<Error>))
    ensures r.0.calls == w.calls + [CreateCall(KeyOf(obj))]
    ensures r.1.None? <==> KeyOf(obj) !in f.create && KeyOf(obj) !in w.objects
    ensures r.0.objects == if r.1.None? then w.objects[KeyOf(obj) := obj] else w.objects
    ensures WellKeyed(w.objects) ==> WellKeyed(r.0.objects)
  {
    var key := KeyOf(obj);
    var calls := w.calls + [CreateCall(key)];
    if key in f.create then (World(w.objects, calls), Some(BackendError(key, f.create[key])))
    else if key in w.objects then (World(w.objects, calls), Some(AlreadyExists(key)))
    else (World(w.objects[key := obj], calls), None)
  }

  function Update(w: World, f: Faults, obj: Object): (r: (World, Option<Error>))
    ensures r.0.calls == w.calls + [UpdateCall(KeyOf(obj))]
    ensures r.1.None? <==> KeyOf(obj) !in f.update && KeyOf(obj) in w.objects
    ensures r.0.objects == if r.1.None? then w.objects[KeyOf(obj) := obj] else w.objects
    ensures WellKeyed(w.objects) ==> WellKeyed(r.0.objects)
  {
    var key := KeyOf(obj);
    var calls := w.calls + [UpdateCall(key)];
    if key in f.update then (World(w.objects, calls), Some(BackendError(key, f.update[key])))
    else if key !in w.objects then (World(w.objects, calls), Some(NotFound(key)))
    else (World(w.objects[key := obj], calls), None)
  }

  /** The client: the objects it stores, the calls made on it, its fault plan. */
  class Client {
    var objects: map<ObjectKey, Object>
    var calls: seq<Call>
    const faults: Faults

    ghost predicate Valid()
      reads this
    {
      WellKeyed(objects)
    }

    function State(): World
      reads this
    {
      World(objects, calls)
    }

    constructor (objects: map<ObjectKey, Object>, faults: Faults)
      requires WellKeyed(objects)
      ensures Valid() && this.faults == faults
      ensures State() == World(objects, [])
    {
      this.objects := objects;
      this.calls := [];
      this.faults := faults;
    }

    method GetObject(key: ObjectKey) returns (r: Result<Object, Error>)
      modifies this`calls
      ensures (State(), r) == Get(old(State()), faults, key)
    {
      calls := calls + [GetCall(key)];
      if key in faults.get {
        r := Failure(BackendError(key, faults.get[key]));
      } else if key in objects {
        r := Success(objects[key]);
      } else {
        r := Failure(NotFound(key));
      }
    }

    method CreateObject(obj: Object) returns (err: Option<Error>)
      modifies this
      ensures (State(), err) == Create(old(State()), faults, obj)
    {
      var key := KeyOf(obj);
      calls := calls + [CreateCall(key)];
      if key in faults.create {
        err := Some(BackendError(key, faults.create[key]));
      } else if key in objects {
        err := Some(AlreadyExists(key));
      } else {
        objects := objects[key := obj];
        err := None;
      }
    }

    method UpdateObject(obj: Object) returns (err: Option<Error>)
      modifies this
      ensures (State(), err) == Update(old(State()), faults, obj)
    {
      var key := KeyOf(obj);
      calls := calls + [UpdateCall(key)];
      if key in faults.update {
        err := Some(BackendError(key, faults.update[key]));
      } else if key !in objects {
        err := Some(NotFound(key));
      } else {
        objects := objects[key := obj];
        err := None;
      }
    }
  }
}
