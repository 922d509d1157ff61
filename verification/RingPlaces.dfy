/** Positions that count without end, and their places in a ring of fixed size. */
module RingPlaces {
  /** The place of position `a` in a ring of `n` words. */
  function Place(a: nat, n: nat): (r: nat)
    requires n > 0
    ensures r < n
    decreases a
  {
    if a < n then a else Place(a - n, n)
  }

  lemma {:induction false} PlaceMod(a: nat, n: nat)
    requires n > 0
    ensures Place(a, n) == a % n
  {
    if a >= n {
      PlaceMod(a - n, n);
      assert a == ((a - n) / n + 1) * n + (a - n) % n;
      Remainder(a, n, (a - n) / n + 1, (a - n) % n);
    }
  }

  /** The remainder, as a place in a ring. */
  method Modulo(a: nat, n: nat) returns (p: nat)
    requires n > 0
    ensures p == Place(a, n)
  {
    PlaceMod(a, n);
    p := a % n;
  }

  lemma Remainder(x: nat, n: nat, q: nat, r: nat)
    requires n > 0 && x == q * n + r && r < n
    ensures x % n == r
  {
    var q' := x / n;
    if q' > q { Gap(q', q, n); } else if q' < q { Gap(q, q', n); }
  }

  lemma Gap(a: nat, b: nat, n: nat)
    requires a > b
    ensures a * n >= b * n + n
  {
    assert a * n == b * n + (a - b) * n;
    assert (a - b) * n == (a - b - 1) * n + n;
  }

  /** Positions at the same place stay so when moved alike. */
  lemma {:induction false} SamePlace(a: nat, b: nat, j: nat, n: nat)
    requires n > 0 && Place(a, n) == Place(b, n)
    ensures Place(a + j, n) == Place(b + j, n)
    decreases a + b
  {
    if a >= n { SamePlace(a - n, b, j, n); } else if b >= n { SamePlace(a, b - n, j, n); }
  }

  /** Two positions less than a lap apart are at different places. */
  lemma {:induction false} Different(a: nat, b: nat, n: nat)
    requires n > 0 && a < b < a + n
    ensures Place(a, n) != Place(b, n)
    decreases a
  {
    if a >= n { Different(a - n, b - n, n); }
  }

  /** The place `d` words on, from a place. */
  lemma Onward(a: nat, d: nat, n: nat)
    requires n > 0
    ensures Place(Place(a, n) + d, n) == Place(a + d, n)
  {
    SamePlace(Place(a, n), a, d, n);
  }

  lemma {:induction false} PlaceBelow(a: nat, n: nat)
    requires n > 0
    ensures Place(a, n) <= a
  {
    if a >= n { PlaceBelow(a - n, n); }
  }

  /** `words` stored from position `a` on, wrapping. */
  function StoreFrom<T>(mem: seq<T>, a: nat, words: seq<T>): (m: seq<T>)
    requires |mem| > 0
    ensures |m| == |mem|
    decreases |words|
  {
    if words == [] then mem else StoreFrom(mem[Place(a, |mem|) := words[0]], a + 1, words[1..])
  }

  lemma {:induction false} StoreAt<T>(mem: seq<T>, a: nat, words: seq<T>, b: nat)
    requires |mem| > 0 && |words| <= |mem| && a <= b < a + |mem|
    ensures StoreFrom(mem, a, words)[Place(b, |mem|)] == if b < a + |words| then words[b - a] else mem[Place(b, |mem|)]
    decreases |words|
  {
    if words != [] {
      var mem1, n := mem[Place(a, |mem|) := words[0]], |mem|;
      if b == a {
        StoreAt(mem1, a + 1, words[1..], a + n);
      } else {
        Different(a, b, n);
        StoreAt(mem1, a + 1, words[1..], b);
      }
    }
  }

  lemma {:induction false} StoreShift<T>(mem: seq<T>, a: nat, b: nat, words: seq<T>)
    requires |mem| > 0 && Place(a, |mem|) == Place(b, |mem|)
    ensures StoreFrom(mem, a, words) == StoreFrom(mem, b, words)
    decreases |words|
  {
    if words != [] {
      SamePlace(a, b, 1, |mem|);
      StoreShift(mem[Place(a, |mem|) := words[0]], a + 1, b + 1, words[1..]);
    }
  }
}
