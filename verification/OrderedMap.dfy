/** The client's string-keyed maps: their entries in key order, as iteration meets them. */
module OrderedMap {
  type Entry = (string, string)

  /** The order of std::string. */
  predicate Before(a: string, b: string) {
    b != "" && (a == "" || a[0] < b[0] || (a[0] == b[0] && Before(a[1..], b[1..])))
  }

  lemma {:induction false} OrderIsTotal(a: string, b: string)
    ensures a == b || Before(a, b) || Before(b, a)
    ensures !(Before(a, b) && Before(b, a)) && !Before(a, a)
  {
    if a != "" && b != "" && a[0] == b[0] {
      OrderIsTotal(a[1..], b[1..]);
      assert a == [a[0]] + a[1..] && b == [b[0]] + b[1..];
    }
    if a == "" {
    } else {
      OrderIsTotal(a[1..], a[1..]);
    }
  }

  lemma {:induction false} OrderIsTransitive(a: string, b: string, c: string)
    requires Before(a, b) && Before(b, c)
    ensures Before(a, c)
  {
    if a != "" && a[0] == b[0] && b[0] == c[0] {
      OrderIsTransitive(a[1..], b[1..], c[1..]);
    }
  }

  /** Every key after the first comes after the first, and so on. */
  predicate Ordered(e: seq<Entry>) {
    e == [] || ((forall x :: x in e[1..] ==> Before(e[0].0, x.0)) && Ordered(e[1..]))
  }

  /** operator[] followed by an assignment. */
  function Put(e: seq<Entry>, k: string, v: string): seq<Entry> {
    if e == [] || Before(k, e[0].0) then [(k, v)] + e
    else if k == e[0].0 then [(k, v)] + e[1..]
    else [e[0]] + Put(e[1..], k, v)
  }

  function PutAll(e: seq<Entry>, more: seq<Entry>): seq<Entry>
    decreases more
  {
    if more == [] then e else PutAll(Put(e, more[0].0, more[0].1), more[1..])
  }

  function ToMap(e: seq<Entry>): map<string, string> {
    if e == [] then map[] else ToMap(e[1..])[e[0].0 := e[0].1]
  }

  lemma {:induction false} KeysOf(e: seq<Entry>, k: string)
    ensures k in ToMap(e) <==> exists x :: x in e && x.0 == k
  {
    if e == [] {
    } else {
      KeysOf(e[1..], k);
      assert e == [e[0]] + e[1..];
      assert e[0] in e;
    }
  }

  lemma {:induction false} PutEntries(e: seq<Entry>, k: string, v: string, x: Entry)
    requires x in Put(e, k, v)
    ensures x == (k, v) || x in e
  {
    if e != [] && !Before(k, e[0].0) && k != e[0].0 && x != e[0] {
      PutEntries(e[1..], k, v, x);
    }
  }

  /** Putting keeps the order and changes one key. */
  lemma {:induction false} PutMeans(e: seq<Entry>, k: string, v: string)
    requires Ordered(e)
    ensures Ordered(Put(e, k, v)) && ToMap(Put(e, k, v)) == ToMap(e)[k := v]
  {
    hide Before;
    if e == [] {
    } else if Before(k, e[0].0) {
      forall x | x in e ensures Before(k, x.0) {
        if x != e[0] {
          assert x in e[1..];
          OrderIsTransitive(k, e[0].0, x.0);
        }
      }
      assert ([(k, v)] + e)[1..] == e;
    } else if k == e[0].0 {
      assert ([(k, v)] + e[1..])[1..] == e[1..];
    } else {
      var rest := Put(e[1..], k, v);
      PutMeans(e[1..], k, v);
      OrderIsTotal(k, e[0].0);
      forall x | x in rest ensures Before(e[0].0, x.0) {
        PutEntries(e[1..], k, v, x);
      }
      assert ([e[0]] + rest)[1..] == rest;
    }
  }

  /** Putting the entries of one map into another merges them, the later value winning. */
  lemma {:induction false} PutAllMeans(e: seq<Entry>, more: seq<Entry>)
    requires Ordered(e) && Ordered(more)
    ensures Ordered(PutAll(e, more)) && ToMap(PutAll(e, more)) == ToMap(e) + ToMap(more)
    decreases more
  {
    hide Before;
    hide Put;
    if more == [] {
    } else {
      var (k, v) := more[0];
      PutMeans(e, k, v);
      PutAllMeans(Put(e, k, v), more[1..]);
      if k in ToMap(more[1..]) {
        KeysOf(more[1..], k);
        OrderIsTotal(k, k);
      }
    }
  }

  lemma EmptyMap(a: seq<Entry>)
    ensures a == [] <==> ToMap(a) == map[]
  {
    if a != [] {
      assert a[0].0 in ToMap(a);
    }
  }

  /** Two ordered maps with the same contents list them alike. */
  lemma {:induction false} OneListing(a: seq<Entry>, b: seq<Entry>)
    requires Ordered(a) && Ordered(b) && ToMap(a) == ToMap(b)
    ensures a == b
  {
    hide Before;
    EmptyMap(a);
    EmptyMap(b);
    if a == [] {
    } else {
      FirstKeysAgree(a, b);
      var k := a[0].0;
      NotAgain(a);
      NotAgain(b);
      assert ToMap(a[1..]) == ToMap(a) - {k};
      assert ToMap(b[1..]) == ToMap(b) - {k};
      OneListing(a[1..], b[1..]);
      assert ToMap(a)[k] == a[0].1 && ToMap(b)[k] == b[0].1;
      assert a == [a[0]] + a[1..] && b == [b[0]] + b[1..];
    }
  }

  lemma NotAgain(a: seq<Entry>)
    requires a != [] && Ordered(a)
    ensures a[0].0 !in ToMap(a[1..])
  {
    KeysOf(a[1..], a[0].0);
    OrderIsTotal(a[0].0, a[0].0);
  }

  lemma FirstIsLeast(a: seq<Entry>, k: string)
    requires a != [] && Ordered(a) && k in ToMap(a)
    ensures k == a[0].0 || Before(a[0].0, k)
  {
    KeysOf(a, k);
    var x :| x in a && x.0 == k;
    if x != a[0] {
      assert x in a[1..];
    }
  }

  lemma FirstKeysAgree(a: seq<Entry>, b: seq<Entry>)
    requires a != [] && b != [] && Ordered(a) && Ordered(b) && ToMap(a) == ToMap(b)
    ensures a[0].0 == b[0].0
  {
    assert a[0].0 in ToMap(a) && b[0].0 in ToMap(b);
    FirstIsLeast(a, b[0].0);
    FirstIsLeast(b, a[0].0);
    OrderIsTotal(a[0].0, b[0].0);
  }
}
