/** Resources in the API server as far as deletion is concerned: a deletion timestamp, one
    finalizer, and the rule that a resource vanishes once it has the first and not the second. */
module ResourceStore {

  type Name = string

  datatype Res<D> = Res(deleting: bool, finalizer: bool, data: D)

  type Store<D> = map<Name, Res<D>>

  /** A new resource, without finalizer. */
  function Created<D>(store: Store<D>, k: Name, data: D): Store<D> {
    if k in store then store else store[k := Res(false, false, data)]
  }

  /** The delete call: mark, or remove at once when no finalizer holds the resource. */
  function Deleted<D>(store: Store<D>, k: Name): Store<D> {
    if k !in store then store
    else if store[k].finalizer then store[k := store[k].(deleting := true)]
    else store - {k}
  }

  /** The patch that adds the finalizer. */
  function WithFinalizer<D>(store: Store<D>, k: Name): Store<D> {
    if k in store then store[k := store[k].(finalizer := true)] else store
  }

  /** The patch that removes the finalizer: a marked resource is then gone. */
  function WithoutFinalizer<D>(store: Store<D>, k: Name): Store<D> {
    if k !in store then store
    else if store[k].deleting then store - {k}
    else store[k := store[k].(finalizer := false)]
  }

  /** An update of what the resource says. */
  function WithData<D>(store: Store<D>, k: Name, data: D): Store<D> {
    if k in store then store[k := store[k].(data := data)] else store
  }

  /** The resource exists and its finalizer keeps it from vanishing. */
  predicate Held<D>(store: Store<D>, k: Name) {
    k in store && store[k].finalizer
  }

  predicate Marked<D>(store: Store<D>, k: Name) {
    k in store && store[k].deleting
  }

  /** A marked resource still has the finalizer, or it would have vanished. */
  predicate SettledAt<D>(store: Store<D>, k: Name) {
    k in store && store[k].deleting ==> store[k].finalizer
  }
}
