/** Types shared by every part of the model. */
module Common {

  datatype Option<+T> = None | Some(value: T)

  /** One byte of a stream. */
  type Byte = x: int | 0 <= x < 256

  /** The outcome of a call: a value, or an exception with its HTTP status. */
  datatype Outcome<+T> = Ok(value: T) | Raised(status: nat)

  function Least(a: real, b: real): (r: real)
  {
    if a <= b then a else b
  }

  function Most(a: real, b: real): (r: real)
  {
    if a <= b then b else a
  }

  /** The elements of a sequence of pieces, in order. */
  function Concat<T>(pieces: seq<seq<T>>): (r: seq<T>)
  {
    if pieces == [] then [] else pieces[0] + Concat(pieces[1..])
  }

  lemma {:induction false} ConcatAppend<T>(a: seq<seq<T>>, b: seq<seq<T>>)
    ensures Concat(a + b) == Concat(a) + Concat(b)
  {
    if a == [] {
      assert a + b == b;
    } else {
      assert (a + b)[1..] == a[1..] + b;
      ConcatAppend(a[1..], b);
    }
  }

  lemma ConcatSnoc<T>(a: seq<seq<T>>, last: seq<T>)
    ensures Concat(a + [last]) == Concat(a) + last
  {
    ConcatAppend(a, [last]);
    assert Concat([last]) == last + Concat<T>([]);
  }

  lemma Associates<T>(a: seq<T>, b: seq<T>, c: seq<T>)
    ensures (a + b) + c == a + (b + c)
  {
  }

  /** One more chunk, both of what is passed on and of what has been passed on. */
  lemma OneMoreChunk<T>(out: seq<seq<T>>, sofar: seq<T>, chunks: seq<seq<T>>, j: nat)
    requires j < |chunks| && Concat(out) == sofar + Concat(chunks[..j])
    ensures Concat(chunks[..j + 1]) == Concat(chunks[..j]) + chunks[j]
    ensures Concat(out + [chunks[j]]) == Concat(out) + chunks[j] == sofar + Concat(chunks[..j + 1])
  {
    ConcatSnoc(chunks[..j], chunks[j]);
    assert chunks[..j + 1] == chunks[..j] + [chunks[j]];
    ConcatSnoc(out, chunks[j]);
    Associates(sofar, Concat(chunks[..j]), chunks[j]);
  }

  lemma Inhabited(ids: set<int>)
    requires ids != {}
    ensures exists x :: x in ids
  {
    if forall x :: x !in ids {
      assert false;
    }
  }

  // ------------------------------------------------------------------- pieces in place

  predicate Holds<T(==)>(z: seq<T>, at: nat, s: seq<T>)
  {
    at + |s| <= |z| && z[at..at + |s|] == s
  }

  lemma HoldsParts<T>(z: seq<T>, at: nat, a: seq<T>, b: seq<T>)
    requires Holds(z, at, a + b)
    ensures Holds(z, at, a) && Holds(z, at + |a|, b)
  {
    var s := z[at..at + |a + b|];
    assert s[..|a|] == a && s[|a|..] == b;
    assert z[at..at + |a|] == s[..|a|] && z[at + |a|..at + |a| + |b|] == s[|a|..];
  }

  lemma HoldsThree<T>(z: seq<T>, at: nat, a: seq<T>, b: seq<T>, c: seq<T>)
    requires Holds(z, at, a + b + c)
    ensures Holds(z, at, a) && Holds(z, at + |a|, b) && Holds(z, at + |a| + |b|, c)
  {
    HoldsParts(z, at, a + b, c);
    HoldsParts(z, at, a, b);
  }

  lemma HoldsWithin<T>(z: seq<T>, at: nat, s: seq<T>, inner: nat, t: seq<T>)
    requires Holds(z, at, s) && Holds(s, inner, t)
    ensures Holds(z, at + inner, t)
  {
    forall i | 0 <= i < |t| ensures z[at + inner + i] == t[i] {
      assert z[at..at + |s|][inner + i] == s[inner + i];
      assert s[inner..inner + |t|][i] == t[i];
    }
    assert z[at + inner..at + inner + |t|] == t;
  }

  lemma SliceOfSlice<T>(z: seq<T>, at: nat, size: nat, inner: nat, width: nat)
    requires at + size <= |z| && inner + width <= size
    ensures z[at..at + size][inner..inner + width] == z[at + inner..at + inner + width]
  {
    var whole := z[at..at + size];
    var s, t := whole[inner..inner + width], z[at + inner..at + inner + width];
    forall i | 0 <= i < |s| ensures s[i] == t[i] {
      assert whole[inner + i] == z[at + inner + i];
    }
    assert s == t;
  }

  /** Each piece lies where the pieces before it end. */
  lemma PieceInPlace<T>(pieces: seq<seq<T>>, k: nat)
    requires k < |pieces|
    ensures Holds(Concat(pieces), |Concat(pieces[..k])|, pieces[k])
    ensures |Concat(pieces[..k + 1])| == |Concat(pieces[..k])| + |pieces[k]|
  {
    ConcatSnoc(pieces[..k], pieces[k]);
    assert pieces[..k] + [pieces[k]] == pieces[..k + 1];
    ConcatAppend(pieces[..k + 1], pieces[k + 1..]);
    assert pieces[..k + 1] + pieces[k + 1..] == pieces;
    var front := Concat(pieces[..k]);
    assert (front + pieces[k])[|front|..] == pieces[k];
    assert Concat(pieces)[|front|..|front| + |pieces[k]|] == (front + pieces[k])[|front|..];
  }
}
