/**
 * Removal by id, shared by the two note lists: `list.filter((n) => n.id !== id)`
 * for any element type, given how to read an element's id.
 */
module Lists {

  lemma HeadTail<X>(s: seq<X>)
    requires |s| > 0
    ensures s == [s[0]] + s[1..]
  {
  }

  /** The elements whose id differs from `id`, in their original order. */
  function Without<T>(xs: seq<T>, key: T -> string, id: string): seq<T> {
    if xs == [] then []
    else (if key(xs[0]) != id then [xs[0]] else []) + Without(xs[1..], key, id)
  }

  /** Removal keeps exactly the elements with another id. */
  lemma {:induction false} WithoutMembers<T>(xs: seq<T>, key: T -> string, id: string)
    ensures forall x :: x in Without(xs, key, id) <==> x in xs && key(x) != id
  {
    if xs != [] {
      WithoutMembers(xs[1..], key, id);
      HeadTail(xs);
    }
  }

  /** Removal keeps the remaining elements in their order: it distributes over concatenation. */
  lemma {:induction false} WithoutAppend<T>(a: seq<T>, b: seq<T>, key: T -> string, id: string)
    ensures Without(a + b, key, id) == Without(a, key, id) + Without(b, key, id)
  {
    if a != [] {
      WithoutAppend(a[1..], b, key, id);
      HeadTail(a + b);
      assert (a + b)[0] == a[0];
      assert (a + b)[1..] == a[1..] + b;
    } else {
      assert a + b == b;
    }
  }

  /** Removing an id nobody has changes nothing. */
  lemma {:induction false} WithoutAbsent<T>(xs: seq<T>, key: T -> string, id: string)
    requires forall i :: 0 <= i < |xs| ==> key(xs[i]) != id
    ensures Without(xs, key, id) == xs
  {
    if xs != [] {
      WithoutAbsent(xs[1..], key, id);
    }
  }

  /** Removing twice is removing once. */
  lemma {:induction false} WithoutIdempotent<T>(xs: seq<T>, key: T -> string, id: string)
    ensures Without(Without(xs, key, id), key, id) == Without(xs, key, id)
  {
    if xs != [] {
      WithoutIdempotent(xs[1..], key, id);
      var rest := Without(xs[1..], key, id);
      if key(xs[0]) != id {
        var r := [xs[0]] + rest;
        assert Without(xs, key, id) == r;
        assert r[0] == xs[0] && r[1..] == rest;
        assert Without(r, key, id) == [xs[0]] + Without(rest, key, id);
      } else {
        assert Without(xs, key, id) == rest;
      }
    }
  }
}
