/** Namespaced API objects as the reconcilers see them: keys, references whose
    empty namespace means the referrer's own, lists in the order the API returns
    them, and look-ups by key. */
module Objects {
  import opened Wrappers

  datatype Key = Key(ns: string, name: string)

  /** An object reference in a spec; ns == "" stands for the referrer's namespace. */
  datatype Ref = Ref(ns: string, name: string)

  datatype Obj<+S> = Obj(key: Key, spec: S)

  function Resolve(r: Ref, home: string): Key {
    Key(if r.ns == "" then home else r.ns, r.name)
  }

  /** The same, spelled out: same name, and the namespace given or the referrer's own. */
  predicate PointsTo(r: Ref, home: string, k: Key) {
    r.name == k.name && (if r.ns == "" then k.ns == home else k.ns == r.ns)
  }

  /** Get by key. */
  function Lookup<S>(objs: seq<Obj<S>>, k: Key): Option<S> {
    if objs == [] then None
    else if objs[0].key == k then Some(objs[0].spec)
    else Lookup(objs[1..], k)
  }

  /** All objects but the ones called `k`, in order. */
  function Without<S>(objs: seq<Obj<S>>, k: Key): seq<Obj<S>> {
    if objs == [] then []
    else if objs[0].key == k then Without(objs[1..], k)
    else [objs[0]] + Without(objs[1..], k)
  }

  /** `b` is `a` after object `k` was created, updated or deleted. */
  predicate ChangedOnlyAt<S(==)>(a: seq<Obj<S>>, b: seq<Obj<S>>, k: Key) {
    Without(a, k) == Without(b, k)
  }

  lemma {:induction false} LookupWithout<S>(objs: seq<Obj<S>>, k: Key, gone: Key)
    requires k != gone
    ensures Lookup(Without(objs, gone), k) == Lookup(objs, k)
  {
    if objs != [] {
      LookupWithout(objs[1..], k, gone);
      if objs[0].key != gone {
        assert ([objs[0]] + Without(objs[1..], gone))[1..] == Without(objs[1..], gone);
      }
    }
  }

  lemma LookupUnchanged<S>(a: seq<Obj<S>>, b: seq<Obj<S>>, changed: Key, k: Key)
    requires ChangedOnlyAt(a, b, changed) && k != changed
    ensures Lookup(a, k) == Lookup(b, k)
  {
    LookupWithout(a, k, changed);
    LookupWithout(b, k, changed);
  }

  lemma {:induction false} MemberWithout<S>(objs: seq<Obj<S>>, o: Obj<S>, gone: Key)
    ensures o in Without(objs, gone) <==> o in objs && o.key != gone
  {
    if objs != [] {
      MemberWithout(objs[1..], o, gone);
      assert objs == [objs[0]] + objs[1..];
    }
  }

  lemma MemberUnchanged<S>(a: seq<Obj<S>>, b: seq<Obj<S>>, changed: Key, o: Obj<S>)
    requires ChangedOnlyAt(a, b, changed) && o.key != changed
    ensures o in a <==> o in b
  {
    MemberWithout(a, o, changed);
    MemberWithout(b, o, changed);
  }

  lemma {:induction false} LookupMember<S>(objs: seq<Obj<S>>, k: Key)
    ensures Lookup(objs, k).Some? ==> Obj(k, Lookup(objs, k).value) in objs
    ensures Lookup(objs, k).None? <==> forall o | o in objs :: o.key != k
  {
    if objs != [] {
      LookupMember(objs[1..], k);
      assert objs == [objs[0]] + objs[1..];
    }
  }

  /** The keys of the objects that satisfy `p`, in list order. */
  function KeysWhere<S>(objs: seq<Obj<S>>, p: Obj<S> -> bool): seq<Key> {
    if objs == [] then []
    else KeysWhere(objs[..|objs| - 1], p) + if p(objs[|objs| - 1]) then [objs[|objs| - 1].key] else []
  }

  lemma KeysWhereSnoc<S>(objs: seq<Obj<S>>, o: Obj<S>, p: Obj<S> -> bool)
    ensures KeysWhere(objs + [o], p) == KeysWhere(objs, p) + if p(o) then [o.key] else []
  {
    var all := objs + [o];
    assert all[..|all| - 1] == objs && all[|all| - 1] == o;
  }

  lemma {:induction false} KeysWhereMembers<S>(objs: seq<Obj<S>>, p: Obj<S> -> bool, k: Key)
    ensures k in KeysWhere(objs, p) <==> exists o :: o in objs && o.key == k && p(o)
  {
    if objs != [] {
      var n := |objs| - 1;
      KeysWhereMembers(objs[..n], p, k);
      assert objs == objs[..n] + [objs[n]];
      assert forall o :: o in objs <==> o in objs[..n] || o == objs[n];
    }
  }

  /** A change elsewhere keeps a key among those that satisfy `p`. */
  lemma KeysWhereKept<S>(a: seq<Obj<S>>, b: seq<Obj<S>>, p: Obj<S> -> bool, changed: Key, k: Key)
    requires ChangedOnlyAt(a, b, changed) && k != changed && k in KeysWhere(a, p)
    ensures k in KeysWhere(b, p)
  {
    KeysWhereMembers(a, p, k);
    KeysWhereMembers(b, p, k);
    var o :| o in a && o.key == k && p(o);
    MemberUnchanged(a, b, changed, o);
  }
}
