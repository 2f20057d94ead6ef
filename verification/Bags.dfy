/**
 Sequences used as bags: pools of tasks, streams and readers, where only what is in them and how
 often matters.
 */
module Bags {
  import opened Sending

  function Count(s: seq<Parcel>, x: Parcel): nat {
    if s == [] then 0
    else Count(s[..|s| - 1], x) + if s[|s| - 1] == x then 1 else 0
  }

  predicate Has(s: seq<Parcel>, x: Parcel) {
    Count(s, x) > 0
  }

  /** `s` with the last occurrence of `x` taken out. */
  function Without(s: seq<Parcel>, x: Parcel): seq<Parcel>
    requires Has(s, x)
  {
    if s[|s| - 1] == x then s[..|s| - 1] else Without(s[..|s| - 1], x) + [s[|s| - 1]]
  }

  lemma CountPush(s: seq<Parcel>, x: Parcel, y: Parcel)
    ensures Count(s + [x], y) == Count(s, y) + if x == y then 1 else 0
  {
    assert (s + [x])[..|s|] == s;
  }

  lemma {:induction false} CountConcat(s: seq<Parcel>, t: seq<Parcel>, y: Parcel)
    ensures Count(s + t, y) == Count(s, y) + Count(t, y)
  {
    if t == [] {
      assert s + t == s;
    } else {
      var n := |t| - 1;
      CountConcat(s, t[..n], y);
      CountPush(s + t[..n], t[n], y);
      assert s + t == s + t[..n] + [t[n]];
    }
  }

  lemma CountPop(s: seq<Parcel>, y: Parcel)
    requires s != []
    ensures Count(s, y) == Count(s[1..], y) + if s[0] == y then 1 else 0
  {
    CountConcat([s[0]], s[1..], y);
    assert s == [s[0]] + s[1..];
    assert [s[0]][..0] == [];
  }

  lemma {:induction false} CountWithout(s: seq<Parcel>, x: Parcel, y: Parcel)
    requires Has(s, x)
    ensures Count(Without(s, x), y) == Count(s, y) - if x == y then 1 else 0
  {
    var n := |s| - 1;
    if s[n] != x {
      CountWithout(s[..n], x, y);
      CountPush(Without(s[..n], x), s[n], y);
    }
  }

  lemma {:induction false} WithoutLength(s: seq<Parcel>, x: Parcel)
    requires Has(s, x)
    ensures |Without(s, x)| == |s| - 1
  {
    if s[|s| - 1] != x {
      WithoutLength(s[..|s| - 1], x);
    }
  }

  lemma {:induction false} CountPositive(s: seq<Parcel>, x: Parcel)
    ensures Has(s, x) <==> x in s
  {
    if s != [] {
      CountPositive(s[..|s| - 1], x);
      assert s == s[..|s| - 1] + [s[|s| - 1]];
    }
  }
}
