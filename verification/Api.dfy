/** The cluster API as the reconcilers use it: calls that may be refused or may take
    effect and still return an error, and JSON merge patches. */
module Api {
  import opened Wrappers

  datatype Reply = Done | Refused | DoneButErrored

  /** The answers to the two calls of a CreateOrPatch. */
  datatype CallReplies = CallReplies(get: Reply, write: Reply)

  /** Who controls an object, from one owner's point of view. */
  datatype Owner = Nobody | Mine | Other

  /** An object as one owner sees it. */
  datatype Owned<+C> = Owned(owner: Owner, content: C)

  /** A changed object wakes the owner if the owner controlled it before or after. */
  predicate Wakes<C(==)>(before: Option<Owned<C>>, after: Option<Owned<C>>) {
    && before != after
    && ((before.Some? && before.value.owner == Mine) || (after.Some? && after.value.owner == Mine))
  }

  function Get<K, V>(m: map<K, V>, k: K): Option<V> {
    if k in m then Some(m[k]) else None
  }

  function Put<K, V>(m: map<K, V>, k: K, v: Option<V>): map<K, V> {
    match v
    case None => m - {k}
    case Some(x) => m[k := x]
  }

  /** One field of a merge patch (RFC 7396, section 2) computed from `base` to
      `want` and applied to `current`: an unchanged field is not in the patch, a
      changed one replaces what is there; arrays are fields and replaced whole. */
  function Patched<V(==)>(base: V, want: V, current: V): V {
    if base == want then current else want
  }
}
