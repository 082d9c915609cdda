/**
 Dictionaries filled in order, where a later entry replaces an earlier one,
 and the question whether the order of the entries shows in the result.
 */
module LastWriter {
  datatype Entry<K, V> = Entry(key: K, value: V)

  function Put<K, V>(m: map<K, V>, es: seq<Entry<K, V>>): map<K, V>
    decreases es
  {
    if es == [] then m else Put(m[es[0].key := es[0].value], es[1..])
  }

  /** Filling `m` with `es` never replaces a value by a different one. */
  predicate Steady<K, V(==)>(m: map<K, V>, es: seq<Entry<K, V>>)
    decreases es
  {
    es == [] ||
    ((es[0].key in m ==> m[es[0].key] == es[0].value)
     && Steady(m[es[0].key := es[0].value], es[1..]))
  }

  /** Entries with one key carry one value. */
  ghost predicate Agree<K, V>(es: seq<Entry<K, V>>) {
    forall a, b :: a in es && b in es && a.key == b.key ==> a.value == b.value
  }

  ghost predicate AgreeWith<K, V>(m: map<K, V>, es: seq<Entry<K, V>>) {
    forall e :: e in es && e.key in m ==> m[e.key] == e.value
  }

  lemma {:induction false} SteadyIffAgree<K, V>(m: map<K, V>, es: seq<Entry<K, V>>)
    ensures Steady(m, es) <==> Agree(es) && AgreeWith(m, es)
    decreases es
  {
    if es != [] {
      var m' := m[es[0].key := es[0].value];
      SteadyIffAgree(m', es[1..]);
      assert es == [es[0]] + es[1..];
      if Steady(m, es) {
        forall e | e in es && e.key in m ensures m[e.key] == e.value {
          if e != es[0] { assert e in es[1..] && e.key in m'; }
        }
        forall a, b | a in es && b in es && a.key == b.key ensures a.value == b.value {
          assert a.key in m' ==> (a in es[1..] ==> m'[a.key] == a.value);
          assert b.key in m' ==> (b in es[1..] ==> m'[b.key] == b.value);
        }
      }
      if Agree(es) && AgreeWith(m, es) {
        assert es[0] in es;
        forall e | e in es[1..] && e.key in m' ensures m'[e.key] == e.value {
          assert e in es;
        }
      }
    }
  }

  lemma {:induction false} PutConcat<K, V>(m: map<K, V>, a: seq<Entry<K, V>>, b: seq<Entry<K, V>>)
    ensures Put(m, a + b) == Put(Put(m, a), b)
    decreases a
  {
    if a == [] {
      assert a + b == b;
    } else {
      assert (a + b)[0] == a[0] && (a + b)[1..] == a[1..] + b;
      PutConcat(m[a[0].key := a[0].value], a[1..], b);
    }
  }

  lemma {:induction false} SteadyConcat<K, V>(m: map<K, V>, a: seq<Entry<K, V>>, b: seq<Entry<K, V>>)
    ensures Steady(m, a + b) <==> Steady(m, a) && Steady(Put(m, a), b)
    decreases a
  {
    if a == [] {
      assert a + b == b;
    } else {
      assert (a + b)[0] == a[0] && (a + b)[1..] == a[1..] + b;
      SteadyConcat(m[a[0].key := a[0].value], a[1..], b);
    }
  }

  lemma {:induction false} PutKeys<K, V>(m: map<K, V>, es: seq<Entry<K, V>>)
    ensures Put(m, es).Keys == m.Keys + (set e | e in es :: e.key)
    decreases es
  {
    if es != [] {
      PutKeys(m[es[0].key := es[0].value], es[1..]);
      assert es == [es[0]] + es[1..];
    }
  }

  lemma {:induction false} PutUnderAgreement<K, V>(m: map<K, V>, es: seq<Entry<K, V>>)
    requires Agree(es)
    ensures forall e :: e in es ==> e.key in Put(m, es) && Put(m, es)[e.key] == e.value
    ensures forall k :: k in m && (forall e :: e in es ==> e.key != k) ==> k in Put(m, es) && Put(m, es)[k] == m[k]
    decreases es
  {
    if es != [] {
      assert es == [es[0]] + es[1..];
      var m' := m[es[0].key := es[0].value];
      PutUnderAgreement(m', es[1..]);
      forall e | e in es ensures e.key in Put(m, es) && Put(m, es)[e.key] == e.value {
        if e !in es[1..] {
          assert e == es[0];
          assert forall x :: x in es[1..] ==> x in es && x.key != e.key;
        }
      }
      forall k | k in m && (forall e :: e in es ==> e.key != k) ensures k in Put(m, es) && Put(m, es)[k] == m[k] {
        assert es[0] in es;
        assert k in m' && m'[k] == m[k];
        forall e | e in es[1..] ensures e.key != k { assert e in es; }
      }
    }
  }

  /** Agreeing entries fill the same dictionary in whatever order they come. */
  lemma {:induction false} PutIgnoresOrder<K, V>(a: seq<Entry<K, V>>, b: seq<Entry<K, V>>)
    requires Agree(a) && forall e :: e in a <==> e in b
    ensures Agree(b) && Put(map[], a) == Put(map[], b)
  {
    assert Agree(b);
    PutKeys<K, V>(map[], a);
    PutKeys<K, V>(map[], b);
    PutUnderAgreement<K, V>(map[], a);
    PutUnderAgreement<K, V>(map[], b);
    assert (set e | e in a :: e.key) == (set e | e in b :: e.key);
    forall k | k in Put(map[], a) ensures Put(map[], a)[k] == Put(map[], b)[k] {
      var e :| e in a && e.key == k;
    }
  }

  // ----- entries contributed part by part -----

  function Gather<P, K, V>(f: P -> seq<Entry<K, V>>, parts: seq<P>): seq<Entry<K, V>> {
    if parts == [] then [] else f(parts[0]) + Gather(f, parts[1..])
  }

  lemma {:induction false} PutGather<P, K, V>(m: map<K, V>, f: P -> seq<Entry<K, V>>, parts: seq<P>)
    requires parts != []
    ensures Put(m, Gather(f, parts)) == Put(Put(m, f(parts[0])), Gather(f, parts[1..]))
  {
    PutConcat(m, f(parts[0]), Gather(f, parts[1..]));
  }

  lemma {:induction false} GatherMember<P, K, V>(f: P -> seq<Entry<K, V>>, parts: seq<P>, e: Entry<K, V>)
    ensures e in Gather(f, parts) <==> exists p :: p in parts && e in f(p)
  {
    if parts != [] {
      GatherMember(f, parts[1..], e);
      assert parts == [parts[0]] + parts[1..];
    }
  }

  /** The parts in another order contribute the same entries in another order. */
  lemma {:induction false} GatherIgnoresOrder<P, K, V>(f: P -> seq<Entry<K, V>>, a: seq<P>, b: seq<P>)
    requires forall p :: p in a <==> p in b
    ensures forall e :: e in Gather(f, a) <==> e in Gather(f, b)
  {
    forall e ensures e in Gather(f, a) <==> e in Gather(f, b) {
      GatherMember(f, a, e);
      GatherMember(f, b, e);
    }
  }

  /** If the parts agree, their order matters neither for agreement nor for the dictionary. */
  lemma {:induction false} SteadyPartsIgnoreOrder<P, K, V>(f: P -> seq<Entry<K, V>>, a: seq<P>, b: seq<P>)
    requires forall p :: p in a <==> p in b
    ensures Steady(map[], Gather(f, a)) <==> Steady(map[], Gather(f, b))
    ensures Steady(map[], Gather(f, a)) ==> Put(map[], Gather(f, a)) == Put(map[], Gather(f, b))
  {
    SteadyIffAgree<K, V>(map[], Gather(f, a));
    SteadyIffAgree<K, V>(map[], Gather(f, b));
    GatherIgnoresOrder(f, a, b);
    if Agree(Gather(f, a)) {
      PutIgnoresOrder(Gather(f, a), Gather(f, b));
    }
    if Agree(Gather(f, b)) {
      PutIgnoresOrder(Gather(f, b), Gather(f, a));
    }
  }
}
