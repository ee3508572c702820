/** Small vocabulary shared by the other modules. */
module Common {

  datatype Option<+T> = None | Some(value: T)

  /** The NUL that ends every C string. */
  const NUL: char := '\0'

  predicate StrictlyIncreasing(s: seq<nat>) {
    forall i, j :: 0 <= i < j < |s| ==> s[i] < s[j]
  }

  /** The elements of `s` outside `drop`, in order. */
  function Without(s: seq<nat>, drop: set<nat>): (r: seq<nat>)
    ensures forall x :: x in r ==> x in s && x !in drop
  {
    if s == [] then [] else (if s[0] in drop then [] else [s[0]]) + Without(s[1..], drop)
  }

  lemma {:induction false} WithoutAppend(s: seq<nat>, t: seq<nat>, drop: set<nat>)
    ensures Without(s + t, drop) == Without(s, drop) + Without(t, drop)
  {
    if s == [] {
      assert s + t == t;
    } else {
      assert (s + t)[1..] == s[1..] + t;
      WithoutAppend(s[1..], t, drop);
    }
  }

  lemma {:induction false} WithoutKeeps(s: seq<nat>, drop: set<nat>)
    requires forall x :: x in s ==> x !in drop
    ensures Without(s, drop) == s
  {
    if s != [] {
      WithoutKeeps(s[1..], drop);
    }
  }

  /** Dropping one more element filters what was left. */
  lemma {:induction false} WithoutMore(s: seq<nat>, drop: set<nat>, x: nat)
    ensures Without(s, drop + {x}) == Without(Without(s, drop), {x})
  {
    if s != [] {
      var head := if s[0] in drop then [] else [s[0]];
      WithoutMore(s[1..], drop, x);
      WithoutAppend(head, Without(s[1..], drop), {x});
      assert Without(head, {x}) == if s[0] in drop + {x} then [] else [s[0]];
    }
  }

  lemma {:induction false} WithoutIncreasing(s: seq<nat>, drop: set<nat>)
    requires StrictlyIncreasing(s)
    ensures StrictlyIncreasing(Without(s, drop))
  {
    if s != [] {
      WithoutIncreasing(s[1..], drop);
      var rest := Without(s[1..], drop);
      forall k | 0 <= k < |rest| ensures s[0] < rest[k] {
        assert rest[k] in s[1..];
      }
    }
  }

  /** What is kept of a longer list, in two parts. */
  lemma WithoutNew(done: seq<nat>, rest: seq<nat>, all: seq<nat>, drop: set<nat>, last: seq<nat>)
    requires done + rest == Without(all, drop)
    requires forall x :: x in last ==> x !in drop
    ensures done + (rest + last) == Without(all + last, drop)
  {
    hide Without;
    WithoutAppend(all, last, drop);
    WithoutKeeps(last, drop);
    assert done + (rest + last) == (done + rest) + last;
  }
}
