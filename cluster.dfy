/**
 * The Kubernetes API server as the core sees it through a typed client:
 * the objects of one kind, keyed by namespace and name, with get, create and
 * update. Every request is logged, so that contracts can say which requests
 * an operation issued; failures are injected through `Faults`, fixed for the
 * pass, so that every outcome the server could choose is covered.
 */
module Cluster {
  import opened Wrappers
  import opened Errors

  /** The identity of a namespaced object. */
  datatype ObjectKey = ObjectKey(namespace: string, name: string)

  /** A write request issued to the server (whether or not it succeeded). */
  datatype Write<T> = Created(key: ObjectKey, obj: T) | Updated(key: ObjectKey, obj: T)

  /**
   * The failures the server reports. `connect` is the outcome of building the
   * client set; the others fail every get, create or update respectively.
   */
  datatype Faults = Faults(connect: Option<Error>, get: Option<Error>, create: Option<Error>, update: Option<Error>)

  const NoFaults := Faults(None, None, None, None)

  /** The stored objects, the injected faults, and the log of requests issued so far. */
  datatype Store<T> = Store(objects: map<ObjectKey, T>, faults: Faults, gets: seq<ObjectKey>, writes: seq<Write<T>>)

  /** A get: the object under `key`, NotFound when there is none. */
  function GetStep<T>(st: Store<T>, key: ObjectKey): (Store<T>, Result<T, Error>) {
    var st' := st.(gets := st.gets + [key]);
    if st.faults.get.Some? then (st', Failure(st.faults.get.value))
    else if key in st.objects then (st', Success(st.objects[key]))
    else (st', Failure(NotFound))
  }

  /** A create: stores `obj` unless an object already exists under `key`. */
  function CreateStep<T>(st: Store<T>, key: ObjectKey, obj: T): (Store<T>, Option<Error>) {
    var st' := st.(writes := st.writes + [Created(key, obj)]);
    if st.faults.create.Some? then (st', st.faults.create)
    else if key in st.objects then (st', Some(AlreadyExists))
    else (st'.(objects := st.objects[key := obj]), None)
  }

  /** An update: replaces the whole object under `key`, NotFound when there is none. */
  function UpdateStep<T>(st: Store<T>, key: ObjectKey, obj: T): (Store<T>, Option<Error>) {
    var st' := st.(writes := st.writes + [Updated(key, obj)]);
    if st.faults.update.Some? then (st', st.faults.update)
    else if key !in st.objects then (st', Some(NotFound))
    else (st'.(objects := st.objects[key := obj]), None)
  }

  /** A typed client for one kind of object, backed by the server state `store`. */
  class Client<T> {
    var store: Store<T>

    constructor (store: Store<T>)
      ensures this.store == store
    {
      this.store := store;
    }

    /** Building the client set from the kubeconfig: fails with the `connect` fault. */
    method Connect() returns (err: Option<Error>)
      ensures err == store.faults.connect
    {
      err := store.faults.connect;
    }

    method Get(key: ObjectKey) returns (r: Result<T, Error>)
      modifies this
      ensures (store, r) == GetStep(old(store), key)
    {
      var (st, out) := GetStep(store, key);
      store, r := st, out;
    }

    method Create(key: ObjectKey, obj: T) returns (err: Option<Error>)
      modifies this
      ensures (store, err) == CreateStep(old(store), key, obj)
    {
      var (st, out) := CreateStep(store, key, obj);
      store, err := st, out;
    }

    method Update(key: ObjectKey, obj: T) returns (err: Option<Error>)
      modifies this
      ensures (store, err) == UpdateStep(old(store), key, obj)
    {
      var (st, out) := UpdateStep(store, key, obj);
      store, err := st, out;
    }
  }
}
