/**
 Messages that may borrow what they send: the wire form of `ClonelessSending`.

 A message type is a tree of `Ty`, a message is a `Val` of that type, and a serializer turns it
 into a sequence of tokens. `C` is the type of whatever the sender shares in an `Arc`.
 */
module Cloneless {
  import opened Options

  /** The shape of a message type. `TCloneless` may occur anywhere and at any depth. */
  datatype Ty =
    | TUnit
    | TInt
    | TSeq(elem: Ty)
    | TPair(first: Ty, second: Ty)
    | TEnum(left: Ty, right: Ty)
    | TOption(inner: Ty)
    | TCloneless(content: Ty)

  /** A message. `View` holds the shared value and the function that finds the content in it. */
  datatype Val<!C> =
    | VUnit
    | VInt(n: int)
    | VSeq(items: seq<Val<C>>)
    | VPair(a: Val<C>, b: Val<C>)
    | VLeft(l: Val<C>)
    | VRight(r: Val<C>)
    | VNone
    | VSome(some: Val<C>)
    | Owned(content: Val<C>)
    | View(arc: C, complete: C -> Val<C>)

  datatype Token = Nil | Int(n: int) | Array(len: nat) | Variant(right: bool) | SomeTag

  type Wire = seq<Token>

  /**
   How the serializer writes `Some(x)`: as `x` alone, which is what MessagePack does and what
   `ClonelessSending` relies on, or behind a tag of its own.
   */
  datatype Codec = Transparent | Tagged

  predicate HasType<C>(ty: Ty, v: Val<C>)
    decreases ty
  {
    match ty
    case TUnit => v.VUnit?
    case TInt => v.VInt?
    case TSeq(t) => v.VSeq? && forall i :: 0 <= i < |v.items| ==> HasType(t, v.items[i])
    case TPair(t, u) => v.VPair? && HasType(t, v.a) && HasType(u, v.b)
    case TEnum(t, u) => (v.VLeft? && HasType(t, v.l)) || (v.VRight? && HasType(u, v.r))
    case TOption(t) => v.VNone? || (v.VSome? && HasType(t, v.some))
    case TCloneless(t) =>
      (v.Owned? && HasType(t, v.content)) || (v.View? && HasType(t, v.complete(v.arc)))
  }

  /** What a `ClonelessSending` gives access to, owned or viewed. */
  function Content<C>(v: Val<C>): Val<C>
    requires v.Owned? || v.View?
  {
    if v.Owned? then v.content else v.complete(v.arc)
  }

  /** The serializer's `serialize_some`. */
  function SerializeSome(codec: Codec, w: Wire): Wire {
    if codec.Transparent? then w else [SomeTag] + w
  }

  function Encode<C>(codec: Codec, ty: Ty, v: Val<C>): (w: Wire)
    requires HasType(ty, v)
    ensures |w| > 0
    decreases ty, 0
  {
    match ty
    case TUnit => [Nil]
    case TInt => [Int(v.n)]
    case TSeq(t) => [Array(|v.items|)] + EncodeAll(codec, t, v.items)
    case TPair(t, u) => [Array(2)] + Encode(codec, t, v.a) + Encode(codec, u, v.b)
    case TEnum(t, u) =>
      if v.VLeft? then [Variant(false)] + Encode(codec, t, v.l)
      else [Variant(true)] + Encode(codec, u, v.r)
    case TOption(t) => if v.VNone? then [Nil] else SerializeSome(codec, Encode(codec, t, v.some))
    case TCloneless(t) => SerializeSome(codec, Encode(codec, t, Content(v)))
  }

  function EncodeAll<C>(codec: Codec, ty: Ty, vs: seq<Val<C>>): Wire
    requires forall i :: 0 <= i < |vs| ==> HasType(ty, vs[i])
    decreases ty, 1 + |vs|
  {
    if vs == [] then [] else Encode(codec, ty, vs[0]) + EncodeAll(codec, ty, vs[1..])
  }

  /** Reads one value of type `ty` from the front of `w`, or fails. */
  function Decode<C>(codec: Codec, ty: Ty, w: Wire): Option<(Val<C>, Wire)>
    decreases ty, 0
  {
    if w == [] then None
    else
      match ty
      case TUnit => if w[0].Nil? then Some((VUnit, w[1..])) else None
      case TInt => if w[0].Int? then Some((VInt(w[0].n), w[1..])) else None
      case TSeq(t) =>
        if !w[0].Array? then None
        else (
            var items := DecodeAll<C>(codec, t, w[0].len, w[1..]);
            if items.None? then None else Some((VSeq(items.value.0), items.value.1)))
      case TPair(t, u) =>
        if w[0] != Array(2) then None
        else (
            var a := Decode<C>(codec, t, w[1..]);
            if a.None? then None
            else
              var b := Decode<C>(codec, u, a.value.1);
              if b.None? then None else Some((VPair(a.value.0, b.value.0), b.value.1)))
      case TEnum(t, u) =>
        if !w[0].Variant? then None
        else if w[0].right then (
            var r := Decode<C>(codec, u, w[1..]);
            if r.None? then None else Some((VRight(r.value.0), r.value.1)))
        else (
            var l := Decode<C>(codec, t, w[1..]);
            if l.None? then None else Some((VLeft(l.value.0), l.value.1)))
      case TOption(t) =>
        if w[0].Nil? then Some((VNone, w[1..]))
        else if codec.Tagged? && !w[0].SomeTag? then None
        else (
            var x := Decode<C>(codec, t, if codec.Tagged? then w[1..] else w);
            if x.None? then None else Some((VSome(x.value.0), x.value.1)))
      case TCloneless(t) =>
        var x := Decode<C>(codec, t, w);
        if x.None? then None else Some((Owned(x.value.0), x.value.1))
  }

  function DecodeAll<C>(codec: Codec, ty: Ty, n: nat, w: Wire): Option<(seq<Val<C>>, Wire)>
    decreases ty, 1 + n
  {
    if n == 0 then Some(([], w))
    else
      var x := Decode<C>(codec, ty, w);
      if x.None? then None
      else
        var xs := DecodeAll<C>(codec, ty, n - 1, x.value.1);
        if xs.None? then None else Some(([x.value.0] + xs.value.0, xs.value.1))
  }

  /** `into_owned`: `None` is the panic on a non-owned variant. */
  function IntoOwned<C>(v: Val<C>): Option<Val<C>>
    requires v.Owned? || v.View?
  {
    if v.Owned? then Some(v.content) else None
  }

  /** The message the receiver should see: every view replaced by the owned content. */
  function Erase<C>(ty: Ty, v: Val<C>): Val<C>
    requires HasType(ty, v)
    decreases ty, 0
  {
    match ty
    case TUnit => v
    case TInt => v
    case TSeq(t) => VSeq(EraseAll(t, v.items))
    case TPair(t, u) => VPair(Erase(t, v.a), Erase(u, v.b))
    case TEnum(t, u) => if v.VLeft? then VLeft(Erase(t, v.l)) else VRight(Erase(u, v.r))
    case TOption(t) => if v.VNone? then v else VSome(Erase(t, v.some))
    case TCloneless(t) => Owned(Erase(t, Content(v)))
  }

  function EraseAll<C>(ty: Ty, vs: seq<Val<C>>): (r: seq<Val<C>>)
    requires forall i :: 0 <= i < |vs| ==> HasType(ty, vs[i])
    ensures |r| == |vs| && forall i :: 0 <= i < |vs| ==> r[i] == Erase(ty, vs[i])
    decreases ty, 1 + |vs|
  {
    if vs == [] then [] else [Erase(ty, vs[0])] + EraseAll(ty, vs[1..])
  }

  /** No `View` anywhere in the message. */
  ghost predicate FullyOwned<C>(ty: Ty, v: Val<C>)
    requires HasType(ty, v)
    decreases ty
  {
    match ty
    case TUnit => true
    case TInt => true
    case TSeq(t) => forall i :: 0 <= i < |v.items| ==> FullyOwned(t, v.items[i])
    case TPair(t, u) => FullyOwned(t, v.a) && FullyOwned(u, v.b)
    case TEnum(t, u) => if v.VLeft? then FullyOwned(t, v.l) else FullyOwned(u, v.r)
    case TOption(t) => v.VSome? ==> FullyOwned(t, v.some)
    case TCloneless(t) => v.Owned? && FullyOwned(t, v.content)
  }

  /** The message is written as a lone nil. */
  predicate NilLike<C>(ty: Ty, v: Val<C>)
    requires HasType(ty, v)
    decreases ty
  {
    match ty
    case TUnit => true
    case TInt => false
    case TSeq(_) => false
    case TPair(_, _) => false
    case TEnum(_, _) => false
    case TOption(t) => v.VNone? || NilLike(t, v.some)
    case TCloneless(t) => NilLike(t, Content(v))
  }

  /** Somewhere in the message there is a `Some` of something written as nil. */
  ghost predicate Blurred<C>(ty: Ty, v: Val<C>)
    requires HasType(ty, v)
    decreases ty
  {
    match ty
    case TUnit => false
    case TInt => false
    case TSeq(t) => exists i :: 0 <= i < |v.items| && Blurred(t, v.items[i])
    case TPair(t, u) => Blurred(t, v.a) || Blurred(u, v.b)
    case TEnum(t, u) => if v.VLeft? then Blurred(t, v.l) else Blurred(u, v.r)
    case TOption(t) => v.VSome? && (NilLike(t, v.some) || Blurred(t, v.some))
    case TCloneless(t) => Blurred(t, Content(v))
  }

  /** What a transparent codec really gives back: a `Some` of a nil reads as `None`. */
  function Collapse<C>(ty: Ty, v: Val<C>): Val<C>
    requires HasType(ty, v)
    decreases ty, 0
  {
    match ty
    case TUnit => v
    case TInt => v
    case TSeq(t) => VSeq(CollapseAll(t, v.items))
    case TPair(t, u) => VPair(Collapse(t, v.a), Collapse(u, v.b))
    case TEnum(t, u) => if v.VLeft? then VLeft(Collapse(t, v.l)) else VRight(Collapse(u, v.r))
    case TOption(t) =>
      if v.VNone? || NilLike(t, v.some) then VNone else VSome(Collapse(t, v.some))
    case TCloneless(t) => Owned(Collapse(t, Content(v)))
  }

  function CollapseAll<C>(ty: Ty, vs: seq<Val<C>>): (r: seq<Val<C>>)
    requires forall i :: 0 <= i < |vs| ==> HasType(ty, vs[i])
    ensures |r| == |vs| && forall i :: 0 <= i < |vs| ==> r[i] == Collapse(ty, vs[i])
    decreases ty, 1 + |vs|
  {
    if vs == [] then [] else [Collapse(ty, vs[0])] + CollapseAll(ty, vs[1..])
  }

  // ---------------------------------------------------------------------------------------------
  // The wire does not show a view
  // ---------------------------------------------------------------------------------------------

  /** Erasing keeps the type, leaves no view, and is not visible on the wire of either codec. */
  lemma {:induction false} EraseIsInvisible<C>(codec: Codec, ty: Ty, v: Val<C>)
    requires HasType(ty, v)
    ensures HasType(ty, Erase(ty, v)) && FullyOwned(ty, Erase(ty, v))
    ensures Encode(codec, ty, Erase(ty, v)) == Encode(codec, ty, v)
    decreases ty, 0
  {
    match ty
    case TUnit =>
    case TInt =>
    case TSeq(t) =>
      EraseAllIsInvisible(codec, t, v.items);
    case TPair(t, u) =>
      EraseIsInvisible(codec, t, v.a);
      EraseIsInvisible(codec, u, v.b);
    case TEnum(t, u) =>
      if v.VLeft? {
        EraseIsInvisible(codec, t, v.l);
      } else {
        EraseIsInvisible(codec, u, v.r);
      }
    case TOption(t) =>
      if v.VSome? {
        EraseIsInvisible(codec, t, v.some);
      }
    case TCloneless(t) =>
      EraseIsInvisible(codec, t, Content(v));
  }

  lemma {:induction false} EraseAllIsInvisible<C>(codec: Codec, ty: Ty, vs: seq<Val<C>>)
    requires forall i :: 0 <= i < |vs| ==> HasType(ty, vs[i])
    ensures var es := EraseAll(ty, vs);
            && (forall i :: 0 <= i < |es| ==> HasType(ty, es[i]) && FullyOwned(ty, es[i]))
            && EncodeAll(codec, ty, es) == EncodeAll(codec, ty, vs)
    decreases ty, 1 + |vs|
  {
    if vs != [] {
      EraseIsInvisible(codec, ty, vs[0]);
      EraseAllIsInvisible(codec, ty, vs[1..]);
      assert EraseAll(ty, vs)[1..] == EraseAll(ty, vs[1..]);
    }
  }

  // ---------------------------------------------------------------------------------------------
  // Everything that was received is owned
  // ---------------------------------------------------------------------------------------------

  /** Whatever tokens arrive, a decoded message has its type and holds no view at any depth. */
  lemma {:induction false} DecodedIsFullyOwned<C>(codec: Codec, ty: Ty, w: Wire)
    ensures var r := Decode<C>(codec, ty, w);
            r.Some? ==> HasType(ty, r.value.0) && FullyOwned(ty, r.value.0)
    decreases ty, 0
  {
    if w != [] {
      match ty
      case TUnit =>
      case TInt =>
      case TSeq(t) =>
        if w[0].Array? {
          DecodedItemsAreFullyOwned<C>(codec, t, w[0].len, w[1..]);
        }
      case TPair(t, u) =>
        DecodedIsFullyOwned<C>(codec, t, w[1..]);
        var a := Decode<C>(codec, t, w[1..]);
        if a.Some? {
          DecodedIsFullyOwned<C>(codec, u, a.value.1);
        }
      case TEnum(t, u) =>
        DecodedIsFullyOwned<C>(codec, t, w[1..]);
        DecodedIsFullyOwned<C>(codec, u, w[1..]);
      case TOption(t) =>
        DecodedIsFullyOwned<C>(codec, t, if codec.Tagged? then w[1..] else w);
      case TCloneless(t) =>
        DecodedIsFullyOwned<C>(codec, t, w);
    }
  }

  lemma {:induction false} DecodedItemsAreFullyOwned<C>(codec: Codec, ty: Ty, n: nat, w: Wire)
    ensures var r := DecodeAll<C>(codec, ty, n, w);
            r.Some? ==> forall i :: 0 <= i < |r.value.0| ==>
                          HasType(ty, r.value.0[i]) && FullyOwned(ty, r.value.0[i])
    decreases ty, 1 + n
  {
    if n > 0 {
      DecodedIsFullyOwned<C>(codec, ty, w);
      var x := Decode<C>(codec, ty, w);
      if x.Some? {
        DecodedItemsAreFullyOwned<C>(codec, ty, n - 1, x.value.1);
        var xs := DecodeAll<C>(codec, ty, n - 1, x.value.1);
        if xs.Some? {
          var all := [x.value.0] + xs.value.0;
          assert DecodeAll<C>(codec, ty, n, w) == Some((all, xs.value.1));
          forall i | 0 <= i < |all| ensures HasType(ty, all[i]) && FullyOwned(ty, all[i]) {
            assert i > 0 ==> all[i] == xs.value.0[i - 1];
          }
        }
      }
    }
  }

  /** `into_owned` never panics on a received `ClonelessSending`, and returns an owned content. */
  lemma IntoOwnedNeverPanicsOnReceived<C>(codec: Codec, content: Ty, w: Wire)
    ensures var r := Decode<C>(codec, TCloneless(content), w);
            r.Some? ==>
              && (r.value.0.Owned? || r.value.0.View?)
              && IntoOwned(r.value.0).Some?
              && HasType(content, IntoOwned(r.value.0).value)
              && FullyOwned(content, IntoOwned(r.value.0).value)
  {
    DecodedIsFullyOwned<C>(codec, TCloneless(content), w);
  }

  // ---------------------------------------------------------------------------------------------
  // Round trip
  // ---------------------------------------------------------------------------------------------

  lemma {:induction false} NilLikeIsNil<C>(ty: Ty, v: Val<C>)
    requires HasType(ty, v)
    ensures var w := Encode(Transparent, ty, v);
            (NilLike(ty, v) <==> w[0].Nil?) && (NilLike(ty, v) ==> w == [Nil])
    decreases ty
  {
    match ty
    case TUnit =>
    case TInt =>
    case TSeq(t) =>
    case TPair(t, u) =>
    case TEnum(t, u) =>
    case TOption(t) =>
      if v.VSome? {
        NilLikeIsNil(t, v.some);
      }
    case TCloneless(t) => NilLikeIsNil(t, Content(v));
  }

  /** Reading back what was written for `v` gives `Collapse(ty, v)` and leaves `rest`. */
  ghost predicate ComesBack<C>(ty: Ty, v: Val<C>, rest: Wire)
    requires HasType(ty, v)
  {
    Decode<C>(Transparent, ty, Encode(Transparent, ty, v) + rest) == Some((Collapse(ty, v), rest))
  }

  /** Exactly what a transparent codec gives back, for every type, and that it reads no further. */
  lemma {:induction false} DecodeEncode<C>(ty: Ty, v: Val<C>, rest: Wire)
    requires HasType(ty, v)
    ensures ComesBack(ty, v, rest)
    decreases ty, 0
  {
    match ty
    case TUnit =>
    case TInt =>
    case TSeq(t) =>
      DecodeEncodeAll(t, v.items, rest);
      assert (Encode(Transparent, ty, v) + rest)[1..] == EncodeAll(Transparent, t, v.items) + rest;
    case TPair(t, u) =>
      DecodeEncode(t, v.a, Encode(Transparent, u, v.b) + rest);
      DecodeEncode(u, v.b, rest);
      PairComesBack(t, u, v, rest);
    case TEnum(t, u) =>
      if v.VLeft? {
        DecodeEncode(t, v.l, rest);
      } else {
        DecodeEncode(u, v.r, rest);
      }
      VariantComesBack(t, u, v, rest);
    case TOption(t) =>
      if v.VSome? {
        NilLikeIsNil(t, v.some);
        DecodeEncode(t, v.some, rest);
      }
    case TCloneless(t) => DecodeEncode(t, Content(v), rest);
  }

  lemma PairComesBack<C>(t: Ty, u: Ty, v: Val<C>, rest: Wire)
    requires HasType(TPair(t, u), v)
    requires ComesBack(t, v.a, Encode(Transparent, u, v.b) + rest) && ComesBack(u, v.b, rest)
    ensures ComesBack(TPair(t, u), v, rest)
  {
    var a, b := Encode(Transparent, t, v.a), Encode(Transparent, u, v.b);
    assert (Encode(Transparent, TPair(t, u), v) + rest)[1..] == a + (b + rest);
  }

  lemma VariantComesBack<C>(t: Ty, u: Ty, v: Val<C>, rest: Wire)
    requires HasType(TEnum(t, u), v)
    requires if v.VLeft? then ComesBack(t, v.l, rest) else ComesBack(u, v.r, rest)
    ensures ComesBack(TEnum(t, u), v, rest)
  {
    var w := if v.VLeft? then Encode(Transparent, t, v.l) else Encode(Transparent, u, v.r);
    assert (Encode(Transparent, TEnum(t, u), v) + rest)[1..] == w + rest;
  }

  lemma {:induction false} DecodeEncodeAll<C>(ty: Ty, vs: seq<Val<C>>, rest: Wire)
    requires forall i :: 0 <= i < |vs| ==> HasType(ty, vs[i])
    ensures DecodeAll<C>(Transparent, ty, |vs|, EncodeAll(Transparent, ty, vs) + rest)
         == Some((CollapseAll(ty, vs), rest))
    decreases ty, 1 + |vs|
  {
    if vs == [] {
      assert EncodeAll(Transparent, ty, vs) + rest == rest;
    } else {
      var head, more := Encode(Transparent, ty, vs[0]), EncodeAll(Transparent, ty, vs[1..]);
      assert EncodeAll(Transparent, ty, vs) + rest == head + (more + rest);
      DecodeEncode(ty, vs[0], more + rest);
      DecodeEncodeAll(ty, vs[1..], rest);
    }
  }

  lemma {:induction false} CollapseIsEraseUnlessBlurred<C>(ty: Ty, v: Val<C>)
    requires HasType(ty, v)
    ensures Collapse(ty, v) == Erase(ty, v) <==> !Blurred(ty, v)
    decreases ty
  {
    match ty
    case TUnit =>
    case TInt =>
    case TSeq(t) =>
      forall i | 0 <= i < |v.items|
        ensures Collapse(t, v.items[i]) == Erase(t, v.items[i]) <==> !Blurred(t, v.items[i])
      {
        CollapseIsEraseUnlessBlurred(t, v.items[i]);
      }
      if Blurred(ty, v) {
        var i :| 0 <= i < |v.items| && Blurred(t, v.items[i]);
        assert Collapse(ty, v).items[i] != Erase(ty, v).items[i];
      } else {
        assert Collapse(ty, v).items == Erase(ty, v).items;
      }
    case TPair(t, u) =>
      CollapseIsEraseUnlessBlurred(t, v.a);
      CollapseIsEraseUnlessBlurred(u, v.b);
    case TEnum(t, u) =>
      if v.VLeft? {
        CollapseIsEraseUnlessBlurred(t, v.l);
      } else {
        CollapseIsEraseUnlessBlurred(u, v.r);
      }
    case TOption(t) =>
      if v.VSome? {
        CollapseIsEraseUnlessBlurred(t, v.some);
      }
    case TCloneless(t) => CollapseIsEraseUnlessBlurred(t, Content(v));
  }

  /** A message comes back as its owned self exactly when it holds no `Some` of a nil. */
  lemma RoundTripIffNotBlurred<C>(ty: Ty, v: Val<C>, rest: Wire)
    requires HasType(ty, v)
    ensures Decode<C>(Transparent, ty, Encode(Transparent, ty, v) + rest) == Some((Erase(ty, v), rest))
       <==> !Blurred(ty, v)
  {
    DecodeEncode(ty, v, rest);
    CollapseIsEraseUnlessBlurred(ty, v);
  }

  lemma {:induction false} OwnedIsItsErasure<C>(ty: Ty, v: Val<C>)
    requires HasType(ty, v) && FullyOwned(ty, v)
    ensures Erase(ty, v) == v
    decreases ty
  {
    match ty
    case TUnit =>
    case TInt =>
    case TSeq(t) =>
      forall i | 0 <= i < |v.items| ensures Erase(t, v.items[i]) == v.items[i] {
        OwnedIsItsErasure(t, v.items[i]);
      }
      assert EraseAll(t, v.items) == v.items;
    case TPair(t, u) =>
      OwnedIsItsErasure(t, v.a);
      OwnedIsItsErasure(u, v.b);
    case TEnum(t, u) =>
      if v.VLeft? {
        OwnedIsItsErasure(t, v.l);
      } else {
        OwnedIsItsErasure(u, v.r);
      }
    case TOption(t) =>
      if v.VSome? {
        OwnedIsItsErasure(t, v.some);
      }
    case TCloneless(t) => OwnedIsItsErasure(t, v.content);
  }

  /** A message without views comes back as the very message, exactly when it holds no `Some` of a nil. */
  lemma OwnedMessagesComeBackIff<C>(ty: Ty, v: Val<C>)
    requires HasType(ty, v) && FullyOwned(ty, v)
    ensures Decode<C>(Transparent, ty, Encode(Transparent, ty, v)) == Some((v, [])) <==> !Blurred(ty, v)
  {
    RoundTripIffNotBlurred(ty, v, []);
    OwnedIsItsErasure(ty, v);
    assert Encode(Transparent, ty, v) + [] == Encode(Transparent, ty, v);
  }

  /** Sending a view is sending, owned, what its function finds in the shared value. */
  lemma ViewIsSentAsItsContent<C>(codec: Codec, content: Ty, arc: C, complete: C -> Val<C>)
    requires HasType(content, complete(arc))
    ensures Encode(codec, TCloneless(content), View(arc, complete))
         == Encode(codec, TCloneless(content), Owned(complete(arc)))
    ensures FullyOwned(content, complete(arc)) ==>
              Erase(TCloneless(content), View(arc, complete)) == Owned(complete(arc))
  {
    if FullyOwned(content, complete(arc)) {
      OwnedIsItsErasure(content, complete(arc));
    }
  }

  /**
   What the receiver gets out of a `ClonelessSending`: `into_owned` succeeds on what was decoded, and
   gives the content that was sent, views in it replaced, exactly when that holds no `Some` of a nil.
   On the sender's side it gives an owned content as it is and panics on a view.
   */
  lemma IntoOwnedGivesTheContent<C>(content: Ty, v: Val<C>)
    requires HasType(TCloneless(content), v)
    ensures var r := Decode<C>(Transparent, TCloneless(content), Encode(Transparent, TCloneless(content), v));
            var sent := if v.Owned? then v.content else v.complete(v.arc);
            && r.Some? && r.value.1 == [] && r.value.0.Owned?
            && IntoOwned(r.value.0).Some?
            && (IntoOwned(r.value.0).value == Erase(content, sent) <==> !Blurred(content, sent))
            && (FullyOwned(content, sent) ==> (IntoOwned(r.value.0).value == sent <==> !Blurred(content, sent)))
    ensures IntoOwned(v).None? <==> v.View?
    ensures v.Owned? ==> IntoOwned(v) == Some(v.content)
  {
    var sent := if v.Owned? then v.content else v.complete(v.arc);
    DecodeEncode(TCloneless(content), v, []);
    var w := Encode(Transparent, TCloneless(content), v);
    assert w + [] == w;
    CollapseIsEraseUnlessBlurred(content, sent);
    if FullyOwned(content, sent) {
      OwnedIsItsErasure(content, sent);
    }
  }

  /** Some value of the type is written as nil. */
  predicate Nullable(ty: Ty) {
    match ty
    case TUnit => true
    case TOption(_) => true
    case TCloneless(t) => Nullable(t)
    case _ => false
  }

  /** No option of a nullable type anywhere. */
  predicate Unambiguous(ty: Ty) {
    match ty
    case TUnit => true
    case TInt => true
    case TSeq(t) => Unambiguous(t)
    case TPair(t, u) => Unambiguous(t) && Unambiguous(u)
    case TEnum(t, u) => Unambiguous(t) && Unambiguous(u)
    case TOption(t) => !Nullable(t) && Unambiguous(t)
    case TCloneless(t) => Unambiguous(t)
  }

  /** A simplest value of each type; of a nullable type, one that is written as nil. */
  function Simplest<C>(ty: Ty): Val<C> {
    match ty
    case TUnit => VUnit
    case TInt => VInt(0)
    case TSeq(_) => VSeq([])
    case TPair(t, u) => VPair(Simplest(t), Simplest(u))
    case TEnum(t, _) => VLeft(Simplest(t))
    case TOption(_) => VNone
    case TCloneless(t) => Owned(Simplest(t))
  }

  lemma {:induction false} SimplestIsOfItsType<C>(ty: Ty)
    ensures HasType<C>(ty, Simplest(ty))
    ensures NilLike<C>(ty, Simplest(ty)) <==> Nullable(ty)
  {
    match ty
    case TPair(t, u) =>
      SimplestIsOfItsType<C>(t);
      SimplestIsOfItsType<C>(u);
    case TEnum(t, _) => SimplestIsOfItsType<C>(t);
    case TCloneless(t) => SimplestIsOfItsType<C>(t);
    case _ =>
  }

  /** A value of an ambiguous type that does not survive the round trip. */
  function Victim<C>(ty: Ty): Val<C>
    requires !Unambiguous(ty)
  {
    match ty
    case TSeq(t) => VSeq([Victim(t)])
    case TPair(t, u) =>
      if !Unambiguous(t) then VPair(Victim(t), Simplest(u)) else VPair(Simplest(t), Victim(u))
    case TEnum(t, u) => if !Unambiguous(t) then VLeft(Victim(t)) else VRight(Victim(u))
    case TOption(t) => VSome(if Nullable(t) then Simplest(t) else Victim(t))
    case TCloneless(t) => Owned(Victim(t))
  }

  lemma {:induction false} VictimIsBlurred<C>(ty: Ty)
    requires !Unambiguous(ty)
    ensures HasType<C>(ty, Victim(ty)) && Blurred<C>(ty, Victim(ty))
  {
    match ty
    case TSeq(t) =>
      VictimIsBlurred<C>(t);
      assert VSeq([Victim<C>(t)]).items[0] == Victim<C>(t);
    case TPair(t, u) =>
      SimplestIsOfItsType<C>(t);
      SimplestIsOfItsType<C>(u);
      VictimIsBlurred<C>(if !Unambiguous(t) then t else u);
    case TEnum(t, u) => VictimIsBlurred<C>(if !Unambiguous(t) then t else u);
    case TOption(t) =>
      SimplestIsOfItsType<C>(t);
      if !Nullable(t) {
        VictimIsBlurred<C>(t);
      }
    case TCloneless(t) => VictimIsBlurred<C>(t);
  }

  lemma {:induction false} UnambiguousIsNeverBlurred<C>(ty: Ty, v: Val<C>)
    requires Unambiguous(ty) && HasType(ty, v)
    ensures !Blurred(ty, v)
    ensures NilLike(ty, v) ==> Nullable(ty)
    decreases ty
  {
    match ty
    case TUnit =>
    case TInt =>
    case TSeq(t) =>
      forall i | 0 <= i < |v.items| ensures !Blurred(t, v.items[i]) {
        UnambiguousIsNeverBlurred(t, v.items[i]);
      }
    case TPair(t, u) =>
      UnambiguousIsNeverBlurred(t, v.a);
      UnambiguousIsNeverBlurred(u, v.b);
    case TEnum(t, u) =>
      if v.VLeft? {
        UnambiguousIsNeverBlurred(t, v.l);
      } else {
        UnambiguousIsNeverBlurred(u, v.r);
      }
    case TOption(t) =>
      if v.VSome? {
        UnambiguousIsNeverBlurred(t, v.some);
      }
    case TCloneless(t) => UnambiguousIsNeverBlurred(t, Content(v));
  }

  /** The law as a law of message types: every message survives iff no option is of a nullable type. */
  lemma RoundTripIffUnambiguous<C(!new)>(ty: Ty)
    ensures Unambiguous(ty) <==>
            forall v: Val<C> :: HasType(ty, v) ==>
              Decode<C>(Transparent, ty, Encode(Transparent, ty, v)) == Some((Erase(ty, v), []))
  {
    forall v: Val<C> | HasType(ty, v)
      ensures Decode<C>(Transparent, ty, Encode(Transparent, ty, v)) == Some((Erase(ty, v), []))
         <==> !Blurred(ty, v)
    {
      RoundTripIffNotBlurred(ty, v, []);
      assert Encode(Transparent, ty, v) + [] == Encode(Transparent, ty, v);
    }
    if Unambiguous(ty) {
      forall v: Val<C> | HasType(ty, v) ensures !Blurred(ty, v) {
        UnambiguousIsNeverBlurred(ty, v);
      }
    } else {
      var v: Val<C> := Victim(ty);
      VictimIsBlurred<C>(ty);
      assert HasType(ty, v) && Blurred(ty, v);
    }
  }

  /** Two messages look the same on the wire exactly when they are the same once owned. */
  lemma SameWireIffSameOnceOwned<C>(ty: Ty, u: Val<C>, v: Val<C>)
    requires Unambiguous(ty) && HasType(ty, u) && HasType(ty, v)
    ensures Encode(Transparent, ty, u) == Encode(Transparent, ty, v) <==> Erase(ty, u) == Erase(ty, v)
  {
    UnambiguousIsNeverBlurred(ty, u);
    UnambiguousIsNeverBlurred(ty, v);
    RoundTripIffNotBlurred(ty, u, []);
    RoundTripIffNotBlurred(ty, v, []);
    EraseIsInvisible(Transparent, ty, u);
    EraseIsInvisible(Transparent, ty, v);
  }

  // ---------------------------------------------------------------------------------------------
  // A message that was cut short
  // ---------------------------------------------------------------------------------------------

  /** Reading does not look past what it reads. */
  lemma {:induction false} DecodeExtends<C>(codec: Codec, ty: Ty, w: Wire, more: Wire)
    requires Decode<C>(codec, ty, w).Some?
    ensures var (v, rest) := Decode<C>(codec, ty, w).value; Decode<C>(codec, ty, w + more) == Some((v, rest + more))
    decreases ty, 0
  {
    assert (w + more)[0] == w[0] && (w + more)[1..] == w[1..] + more;
    match ty
    case TUnit =>
    case TInt =>
    case TSeq(t) => DecodeAllExtends<C>(codec, t, w[0].len, w[1..], more);
    case TPair(t, u) =>
      DecodeExtends<C>(codec, t, w[1..], more);
      DecodeExtends<C>(codec, u, Decode<C>(codec, t, w[1..]).value.1, more);
    case TEnum(t, u) => DecodeExtends<C>(codec, if w[0].right then u else t, w[1..], more);
    case TOption(t) =>
      if !w[0].Nil? {
        DecodeExtends<C>(codec, t, if codec.Tagged? then w[1..] else w, more);
      }
    case TCloneless(t) => DecodeExtends<C>(codec, t, w, more);
  }

  lemma {:induction false} DecodeAllExtends<C>(codec: Codec, ty: Ty, n: nat, w: Wire, more: Wire)
    requires DecodeAll<C>(codec, ty, n, w).Some?
    ensures var (vs, rest) := DecodeAll<C>(codec, ty, n, w).value;
            DecodeAll<C>(codec, ty, n, w + more) == Some((vs, rest + more))
    decreases ty, 1 + n
  {
    if n > 0 {
      DecodeExtends<C>(codec, ty, w, more);
      DecodeAllExtends<C>(codec, ty, n - 1, Decode<C>(codec, ty, w).value.1, more);
    }
  }

  /** Reading a value takes at least one token. */
  lemma {:induction false} DecodeConsumes<C>(codec: Codec, ty: Ty, w: Wire)
    requires Decode<C>(codec, ty, w).Some?
    ensures |Decode<C>(codec, ty, w).value.1| < |w|
    decreases ty, 0
  {
    match ty
    case TUnit =>
    case TInt =>
    case TSeq(t) => DecodeAllConsumes<C>(codec, t, w[0].len, w[1..]);
    case TPair(t, u) =>
      DecodeConsumes<C>(codec, t, w[1..]);
      DecodeConsumes<C>(codec, u, Decode<C>(codec, t, w[1..]).value.1);
    case TEnum(t, u) => DecodeConsumes<C>(codec, if w[0].right then u else t, w[1..]);
    case TOption(t) =>
      if !w[0].Nil? {
        DecodeConsumes<C>(codec, t, if codec.Tagged? then w[1..] else w);
      }
    case TCloneless(t) => DecodeConsumes<C>(codec, t, w);
  }

  lemma {:induction false} DecodeAllConsumes<C>(codec: Codec, ty: Ty, n: nat, w: Wire)
    requires DecodeAll<C>(codec, ty, n, w).Some?
    ensures |DecodeAll<C>(codec, ty, n, w).value.1| <= |w|
    decreases ty, 1 + n
  {
    if n > 0 {
      DecodeConsumes<C>(codec, ty, w);
      DecodeAllConsumes<C>(codec, ty, n - 1, Decode<C>(codec, ty, w).value.1);
    }
  }

  /** What was written of a message reads as a message only once all of it was written. */
  lemma CutShortIsUnreadable<C>(ty: Ty, v: Val<C>, n: nat)
    requires HasType(ty, v) && n <= |Encode(Transparent, ty, v)|
    ensures Decode<C>(Transparent, ty, Encode(Transparent, ty, v)[..n]).Some? <==> n == |Encode(Transparent, ty, v)|
  {
    var whole := Encode(Transparent, ty, v);
    DecodeEncode(ty, v, []);
    assert whole + [] == whole && whole[..n] + whole[n..] == whole;
    if Decode<C>(Transparent, ty, whole[..n]).Some? {
      var (_, rest) := Decode<C>(Transparent, ty, whole[..n]).value;
      DecodeExtends<C>(Transparent, ty, whole[..n], whole[n..]);
      assert |rest + whole[n..]| == 0;
    }
  }

  // ---------------------------------------------------------------------------------------------
  // A codec that tags
  // ---------------------------------------------------------------------------------------------

  function Tags(k: nat): Wire {
    if k == 0 then [] else [SomeTag] + Tags(k - 1)
  }

  lemma {:induction false} TagsPush(k: nat)
    ensures Tags(k) + [SomeTag] == Tags(k + 1)
  {
    if k > 0 {
      TagsPush(k - 1);
    }
  }

  lemma OneMoreTag(k: nat, e: Wire, rest: Wire)
    ensures Tags(k) + ([SomeTag] + e) + rest == Tags(k + 1) + e + rest
  {
    TagsPush(k);
    assert Tags(k) + ([SomeTag] + e) == Tags(k) + [SomeTag] + e;
  }

  lemma OneTagOff(k: nat, e: Wire, rest: Wire)
    ensures (Tags(k + 1) + e + rest)[1..] == Tags(k) + e + rest
  {
    assert Tags(k + 1) + e + rest == [SomeTag] + (Tags(k) + e + rest);
  }

  /** Tags too many in front of a message are never skipped to give the message. */
  lemma {:induction false} TagsAreNotSkipped<C>(k: nat, ty: Ty, v: Val<C>, rest: Wire)
    requires (k > 0 || ty.TCloneless?) && HasType(ty, v)
    ensures Decode<C>(Tagged, ty, Tags(k) + Encode(Tagged, ty, v) + rest) != Some((Erase(ty, v), rest))
    decreases ty
  {
    assert (Tags(k) + Encode(Tagged, ty, v) + rest)[0] == SomeTag;
    match ty
    case TOption(t) =>
      if v.VSome? {
        OneMoreTag(k, Encode(Tagged, t, v.some), rest);
        OneTagOff(k, Encode(Tagged, t, v.some), rest);
        TagsAreNotSkipped(k, t, v.some, rest);
      }
    case TCloneless(t) =>
      OneMoreTag(k, Encode(Tagged, t, Content(v)), rest);
      TagsAreNotSkipped(k + 1, t, Content(v), rest);
    case _ =>
  }

  /**
   The transparency of `Some` is needed: from a codec that tags it, no `ClonelessSending` ever comes
   back as its owned self, whatever its content, owned or viewed.
   */
  lemma TaggedSomeLosesEveryCloneless<C>(content: Ty, v: Val<C>, rest: Wire)
    requires HasType(TCloneless(content), v)
    ensures Decode<C>(Tagged, TCloneless(content), Encode(Tagged, TCloneless(content), v) + rest)
         != Some((Erase(TCloneless(content), v), rest))
  {
    TagsAreNotSkipped(0, TCloneless(content), v, rest);
    assert Tags(0) + Encode(Tagged, TCloneless(content), v) == Encode(Tagged, TCloneless(content), v);
  }
}
