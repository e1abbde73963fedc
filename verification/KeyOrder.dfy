/** The order of the client's maps is that of the bytes of their keys, as std::string compares them. */
module KeyOrder {
  import opened Codec
  import opened OrderedMap

  lemma {:induction false} SamePrefix(p: seq<Byte>, x: seq<Byte>, y: seq<Byte>)
    ensures BytesBefore(p + x, p + y) <==> BytesBefore(x, y)
    decreases p
  {
    if p == [] {
      assert p + x == x && p + y == y;
    } else {
      assert (p + x)[1..] == p[1..] + x && (p + y)[1..] == p[1..] + y;
      SamePrefix(p[1..], x, y);
    }
  }

  lemma LessOnce(a: seq<Byte>, b: seq<Byte>, i: nat, j: nat)
    requires LessAt(a, b, i)
    ensures !LessAt(b, a, j)
  {
    if j < i {
      assert a[..i][j] == b[..i][j];
    } else if i < j && j < |a| && j < |b| {
      assert a[..j][i] == a[i] && b[..j][i] == b[i];
    }
  }

  /** Once two sequences differ, what follows makes no difference. */
  lemma DifferThen(a: seq<Byte>, b: seq<Byte>, i: nat, x: seq<Byte>, y: seq<Byte>)
    requires LessAt(a, b, i)
    ensures BytesBefore(a + x, b + y) && !BytesBefore(b + y, a + x)
  {
    assert (a + x)[..i] == a[..i] && (b + y)[..i] == b[..i];
    assert LessAt(a + x, b + y, i);
    BytesBeforeExactly(a + x, b + y);
    BytesBeforeExactly(b + y, a + x);
    forall j: nat ensures !LessAt(b + y, a + x, j) {
      LessOnce(a + x, b + y, i, j);
    }
    assert (b + y)[i] != (a + x)[i];
  }

  /** The encodings of two characters differ first where the lesser character has the lesser byte. */
  lemma CharsDiffer(c: char, d: char)
    requires c < d
    ensures exists i: nat :: LessAt(EncodeChar(c), EncodeChar(d), i)
  {
    var x, y := EncodeChar(c), EncodeChar(d);
    EncodeShape(c);
    EncodeShape(d);
    if x[0] < y[0] {
      assert LessAt(x, y, 0);
    } else if |x| > 1 && x[1] < y[1] {
      assert x[..1] == y[..1];
      assert LessAt(x, y, 1);
    } else if |x| > 2 && x[2] < y[2] {
      assert x[..2] == y[..2];
      assert LessAt(x, y, 2);
    } else {
      assert x[..3] == y[..3];
      assert LessAt(x, y, 3);
    }
  }

  /** Keys are in the order of their bytes. */
  lemma {:induction false} KeysAsBytes(a: string, b: string)
    ensures Before(a, b) <==> BytesBefore(EncodeText(a), EncodeText(b))
    decreases a
  {
    if a == "" || b == "" {
      if b != "" {
        EncodeShape(b[0]);
      }
      if a != "" {
        EncodeShape(a[0]);
      }
    } else {
      var x, y := EncodeText(a[1..]), EncodeText(b[1..]);
      if a[0] == b[0] {
        SamePrefix(EncodeChar(a[0]), x, y);
        KeysAsBytes(a[1..], b[1..]);
      } else if a[0] < b[0] {
        CharsDiffer(a[0], b[0]);
        var i: nat :| LessAt(EncodeChar(a[0]), EncodeChar(b[0]), i);
        DifferThen(EncodeChar(a[0]), EncodeChar(b[0]), i, x, y);
      } else {
        CharsDiffer(b[0], a[0]);
        var i: nat :| LessAt(EncodeChar(b[0]), EncodeChar(a[0]), i);
        DifferThen(EncodeChar(b[0]), EncodeChar(a[0]), i, y, x);
      }
    }
  }
}
