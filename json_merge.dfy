/** `mergeJson` on parsed JSON objects. An object is an insertion-ordered
    list of members with distinct names, as Gson's JsonObject keeps them;
    member values are left abstract. */
module JsonMerge {

  import opened Wrappers

  type Member<V> = (string, V)

  predicate UniqueKeys<V>(o: seq<Member<V>>)
  {
    forall i, j :: 0 <= i < j < |o| ==> o[i].0 != o[j].0
  }

  function KeySet<V>(o: seq<Member<V>>): set<string>
  {
    set i | 0 <= i < |o| :: o[i].0
  }

  /** `get(name)`: the value of the first member with that name. */
  function Lookup<V>(o: seq<Member<V>>, name: string): (r: Option<V>)
    ensures r.Some? <==> name in KeySet(o)
  {
    if |o| == 0 then None
    else if o[0].0 == name then Some(o[0].1)
    else
      KeySetCons(o);
      Lookup(o[1..], name)
  }

  /** The members whose names are not in `names`, in their order. */
  function Without<V>(o: seq<Member<V>>, names: set<string>): (r: seq<Member<V>>)
  {
    if |o| == 0 then []
    else if o[0].0 in names then Without(o[1..], names)
    else [o[0]] + Without(o[1..], names)
  }

  /** `remove(name)`. */
  function Remove<V>(o: seq<Member<V>>, name: string): (r: seq<Member<V>>)
    ensures KeySet(r) == KeySet(o) - {name}
    ensures UniqueKeys(o) ==> UniqueKeys(r)
  {
    WithoutKeys(o, {name});
    Without(o, {name})
  }

  /** `add(name, value)`: an existing member keeps its place and takes the
      new value; a new member goes last. */
  function Put<V>(o: seq<Member<V>>, name: string, value: V): (r: seq<Member<V>>)
    ensures Lookup(r, name) == Some(value)
    ensures KeySet(r) == KeySet(o) + {name}
    ensures forall n :: n != name ==> Lookup(r, n) == Lookup(o, n)
    decreases |o|
  {
    if |o| == 0 then [(name, value)]
    else if o[0].0 == name then
      var r := [(name, value)] + o[1..];
      KeySetCons(o);
      KeySetCons(r);
      assert r[1..] == o[1..];
      r
    else
      var rest := Put(o[1..], name, value);
      var r := [o[0]] + rest;
      KeySetCons(o);
      KeySetCons(r);
      assert r[1..] == rest;
      r
  }

  lemma {:induction false} KeySetCons<V>(o: seq<Member<V>>)
    requires |o| > 0
    ensures KeySet(o) == {o[0].0} + KeySet(o[1..])
  {
    forall x | x in KeySet(o) ensures x in {o[0].0} + KeySet(o[1..]) {
      var i :| 0 <= i < |o| && o[i].0 == x;
      if i > 0 { assert o[1..][i - 1].0 == x; }
    }
    forall x | x in KeySet(o[1..]) ensures x in KeySet(o) {
      var i :| 0 <= i < |o| - 1 && o[1..][i].0 == x;
      assert o[i + 1].0 == x;
    }
  }

  lemma {:induction false} WithoutKeys<V>(o: seq<Member<V>>, names: set<string>)
    ensures KeySet(Without(o, names)) == KeySet(o) - names
    ensures UniqueKeys(o) ==> UniqueKeys(Without(o, names))
    decreases |o|
  {
    if |o| > 0 {
      WithoutKeys(o[1..], names);
      KeySetCons(o);
      var rest := Without(o[1..], names);
      if o[0].0 !in names {
        KeySetCons([o[0]] + rest);
        assert ([o[0]] + rest)[1..] == rest;
        if UniqueKeys(o) {
          assert UniqueKeys(o[1..]) by {
            forall i, j | 0 <= i < j < |o| - 1 ensures o[1..][i].0 != o[1..][j].0 {
              assert o[i + 1].0 != o[j + 1].0;
            }
          }
          forall j | 0 < j < |[o[0]] + rest| ensures ([o[0]] + rest)[0].0 != ([o[0]] + rest)[j].0 {
            assert ([o[0]] + rest)[j] == rest[j - 1];
            assert rest[j - 1].0 in KeySet(rest);
            var i :| 0 <= i < |o| - 1 && o[1..][i].0 == rest[j - 1].0;
            assert o[0].0 != o[i + 1].0;
          }
          forall i, j | 0 < i < j < |[o[0]] + rest| ensures ([o[0]] + rest)[i].0 != ([o[0]] + rest)[j].0 {
            assert ([o[0]] + rest)[i] == rest[i - 1] && ([o[0]] + rest)[j] == rest[j - 1];
          }
        }
      } else {
        if UniqueKeys(o) {
          assert UniqueKeys(o[1..]) by {
            forall i, j | 0 <= i < j < |o| - 1 ensures o[1..][i].0 != o[1..][j].0 {
              assert o[i + 1].0 != o[j + 1].0;
            }
          }
        }
      }
    }
  }

  lemma {:induction false} WithoutConcat<V>(a: seq<Member<V>>, b: seq<Member<V>>, names: set<string>)
    ensures Without(a + b, names) == Without(a, names) + Without(b, names)
    decreases |a|
  {
    if |a| == 0 {
      assert a + b == b;
    } else {
      assert (a + b)[1..] == a[1..] + b;
      WithoutConcat(a[1..], b, names);
    }
  }

  lemma {:induction false} WithoutTwice<V>(o: seq<Member<V>>, first: set<string>, second: set<string>)
    ensures Without(Without(o, first), second) == Without(o, first + second)
    decreases |o|
  {
    if |o| > 0 {
      WithoutTwice(o[1..], first, second);
      if o[0].0 !in first {
        assert Without(o, first) == [o[0]] + Without(o[1..], first);
        assert ([o[0]] + Without(o[1..], first))[1..] == Without(o[1..], first);
      }
    }
  }

  lemma {:induction false} WithoutDisjoint<V>(o: seq<Member<V>>, names: set<string>)
    requires KeySet(o) !! names
    ensures Without(o, names) == o
    decreases |o|
  {
    if |o| > 0 {
      KeySetCons(o);
      WithoutDisjoint(o[1..], names);
      assert [o[0]] + o[1..] == o;
    }
  }

  lemma {:induction false} PutAbsent<V>(o: seq<Member<V>>, name: string, value: V)
    requires name !in KeySet(o)
    ensures Put(o, name, value) == o + [(name, value)]
    decreases |o|
  {
    if |o| > 0 {
      KeySetCons(o);
      PutAbsent(o[1..], name, value);
      assert [o[0]] + (o[1..] + [(name, value)]) == o + [(name, value)];
    }
  }

  lemma KeySetSnoc<V>(o: seq<Member<V>>, m: Member<V>)
    ensures KeySet(o + [m]) == KeySet(o) + {m.0}
  {
    forall x | x in KeySet(o) ensures x in KeySet(o + [m]) {
      var j :| 0 <= j < |o| && o[j].0 == x;
      assert (o + [m])[j] == o[j];
    }
    assert (o + [m])[|o|] == m;
  }

  function NameSet(names: seq<string>): set<string>
  {
    set k | k in names
  }

  /** The object `mergeJson` returns: the original members not overridden,
      in their order, then the overriding members in theirs, and from all of
      them the removed names taken out. */
  function Merged<V>(json: seq<Member<V>>, newProperties: seq<Member<V>>, removed: set<string>): seq<Member<V>>
  {
    Without(Without(json, KeySet(newProperties)) + newProperties, removed)
  }

  /** `mergeJson`, after parsing: every member of `newProperties` is removed
      from the object and added again, then every name of `removeProperties`
      is removed. */
  method MergeJson<V>(json: seq<Member<V>>, newProperties: seq<Member<V>>, removeProperties: seq<string>)
    returns (r: seq<Member<V>>)
    requires UniqueKeys(json) && UniqueKeys(newProperties)
    ensures r == Merged(json, newProperties, NameSet(removeProperties))
    ensures UniqueKeys(r)
  {
    var obj := json;
    WithoutDisjoint(json, {});
    assert KeySet(newProperties[..0]) == {};
    for i := 0 to |newProperties|
      invariant obj == Without(json, KeySet(newProperties[..i])) + newProperties[..i]
      invariant UniqueKeys(obj)
    {
      OverrideStep(json, newProperties, i, obj);
      obj := Put(Remove(obj, newProperties[i].0), newProperties[i].0, newProperties[i].1);
    }
    assert newProperties[..|newProperties|] == newProperties;
    ghost var mid := obj;
    WithoutDisjoint(mid, {});
    assert NameSet(removeProperties[..0]) == {};
    for j := 0 to |removeProperties|
      invariant obj == Without(mid, NameSet(removeProperties[..j]))
      invariant UniqueKeys(obj)
    {
      WithoutTwice(mid, NameSet(removeProperties[..j]), {removeProperties[j]});
      assert (NameSet(removeProperties[..j + 1])) ==
             (NameSet(removeProperties[..j])) + {removeProperties[j]} by {
        assert removeProperties[..j + 1] == removeProperties[..j] + [removeProperties[j]];
      }
      WithoutKeys(obj, {removeProperties[j]});
      obj := Remove(obj, removeProperties[j]);
    }
    assert removeProperties[..|removeProperties|] == removeProperties;
    return obj;
  }

  /** One round of the first loop of `mergeJson`: removing and re-adding
      the next overriding member extends the invariant by that member. */
  lemma OverrideStep<V>(json: seq<Member<V>>, newProperties: seq<Member<V>>, i: nat, obj: seq<Member<V>>)
    requires UniqueKeys(newProperties) && i < |newProperties|
    requires obj == Without(json, KeySet(newProperties[..i])) + newProperties[..i]
    requires UniqueKeys(obj)
    ensures Put(Remove(obj, newProperties[i].0), newProperties[i].0, newProperties[i].1) ==
            Without(json, KeySet(newProperties[..i + 1])) + newProperties[..i + 1]
    ensures UniqueKeys(Put(Remove(obj, newProperties[i].0), newProperties[i].0, newProperties[i].1))
  {
    var (name, value) := newProperties[i];
    var done := newProperties[..i];
    assert name !in KeySet(done) by {
      forall j | 0 <= j < i ensures done[j].0 != name {
        assert done[j] == newProperties[j];
      }
    }
    assert newProperties[..i + 1] == done + [(name, value)];
    KeySetSnoc(done, (name, value));
    var removed := Remove(obj, name);
    WithoutConcat(Without(json, KeySet(done)), done, {name});
    WithoutTwice(json, KeySet(done), {name});
    WithoutDisjoint(done, {name});
    WithoutKeys(obj, {name});
    PutAbsent(removed, name, value);
    AppendFresh(removed, name, value);
  }

  lemma AppendFresh<V>(o: seq<Member<V>>, name: string, value: V)
    requires UniqueKeys(o) && name !in KeySet(o)
    ensures UniqueKeys(o + [(name, value)])
  {
    forall i, j | 0 <= i < j < |o| + 1 ensures (o + [(name, value)])[i].0 != (o + [(name, value)])[j].0 {
      if j == |o| {
        assert o[i].0 in KeySet(o);
      }
    }
  }

  lemma {:induction false} LookupWithout<V>(o: seq<Member<V>>, names: set<string>, name: string)
    ensures Lookup(Without(o, names), name) == if name in names then None else Lookup(o, name)
    decreases |o|
  {
    if |o| > 0 {
      LookupWithout(o[1..], names, name);
      if o[0].0 !in names {
        assert ([o[0]] + Without(o[1..], names))[1..] == Without(o[1..], names);
      }
    }
  }

  lemma {:induction false} LookupConcat<V>(a: seq<Member<V>>, b: seq<Member<V>>, name: string)
    ensures Lookup(a + b, name) == if name in KeySet(a) then Lookup(a, name) else Lookup(b, name)
    decreases |a|
  {
    if |a| > 0 {
      assert (a + b)[1..] == a[1..] + b;
      LookupConcat(a[1..], b, name);
    } else {
      assert a + b == b;
    }
  }

  /** The result lists the original members that were neither overridden nor
      removed, in their original order, followed by the overriding members
      that were not removed, in the order of `newProperties`. */
  lemma MergedOrder<V>(json: seq<Member<V>>, newProperties: seq<Member<V>>, removed: set<string>)
    ensures Merged(json, newProperties, removed) ==
            Without(json, KeySet(newProperties) + removed) + Without(newProperties, removed)
  {
    WithoutConcat(Without(json, KeySet(newProperties)), newProperties, removed);
    WithoutTwice(json, KeySet(newProperties), removed);
  }

  /** Member by member: a removed name is absent (removal runs after the
      overrides), an overridden name has its value from `newProperties`, and
      every other name keeps its original value. */
  lemma MergedLookup<V>(json: seq<Member<V>>, newProperties: seq<Member<V>>, removed: set<string>, name: string)
    ensures Lookup(Merged(json, newProperties, removed), name) ==
            if name in removed then None
            else if name in KeySet(newProperties) then Lookup(newProperties, name)
            else Lookup(json, name)
  {
    var kept := Without(json, KeySet(newProperties));
    LookupWithout(kept + newProperties, removed, name);
    LookupConcat(kept, newProperties, name);
    WithoutKeys(json, KeySet(newProperties));
    LookupWithout(json, KeySet(newProperties), name);
  }

  lemma {:induction false} WithoutAll<V>(o: seq<Member<V>>, names: set<string>)
    requires KeySet(o) <= names
    ensures Without(o, names) == []
    decreases |o|
  {
    if |o| > 0 {
      KeySetCons(o);
      WithoutAll(o[1..], names);
    }
  }

  /** Merging the same properties a second time changes nothing. */
  lemma MergeIdempotent<V>(json: seq<Member<V>>, newProperties: seq<Member<V>>, removed: set<string>)
    ensures Merged(Merged(json, newProperties, removed), newProperties, removed) ==
            Merged(json, newProperties, removed)
  {
    var names := KeySet(newProperties) + removed;
    var added := Without(newProperties, removed);
    var kept := Without(json, names);
    var once := Merged(json, newProperties, removed);
    MergedOrder(json, newProperties, removed);
    assert once == kept + added;
    MergedOrder(once, newProperties, removed);
    WithoutConcat(kept, added, names);
    WithoutTwice(json, names, names);
    assert names + names == names;
    WithoutKeys(newProperties, removed);
    WithoutAll(added, names);
    assert Without(once, names) == kept + [] == kept;
  }
}
