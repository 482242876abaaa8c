/** Piles: ordered sequences of cards whose last element is the top, and the
    multiset of card identities they hold (used to state that no card is ever
    duplicated or lost). */
module Piles {
  import opened Cards

  datatype Option<T> = None | Some(value: T)

  /** The top card of a non-empty pile. */
  function Top(p: seq<Card>): Card
    requires |p| > 0
  {
    p[|p| - 1]
  }

  /** The pile without its top card. */
  function Pop(p: seq<Card>): (r: seq<Card>)
    requires |p| > 0
    ensures r + [Top(p)] == p
  {
    p[..|p| - 1]
  }

  /** The cards in the opposite order. */
  function Reverse(s: seq<Card>): (r: seq<Card>)
    ensures |r| == |s|
  {
    if s == [] then [] else Reverse(s[1..]) + [s[0]]
  }

  lemma {:induction false} ReverseAt(s: seq<Card>, k: nat)
    requires k < |s|
    ensures Reverse(s)[k] == s[|s| - 1 - k]
  {
    if k < |s| - 1 {
      ReverseAt(s[1..], k);
    }
  }

  lemma ReverseReverse(s: seq<Card>)
    ensures Reverse(Reverse(s)) == s
  {
    forall k | 0 <= k < |s| ensures Reverse(Reverse(s))[k] == s[k] {
      ReverseAt(Reverse(s), k);
      ReverseAt(s, |s| - 1 - k);
    }
  }

  /** The same cards with every face-up flag set to `up`. */
  function Flipped(s: seq<Card>, up: bool): (r: seq<Card>)
    ensures |r| == |s|
    ensures forall i :: 0 <= i < |s| ==> r[i] == s[i].(faceUp := up)
  {
    seq(|s|, i requires 0 <= i < |s| => s[i].(faceUp := up))
  }

  /** Reversing a suffix that starts one position earlier puts that card last. */
  lemma ReverseSuffix(s: seq<Card>, i: nat)
    requires i < |s|
    ensures Reverse(s[i..]) == Reverse(s[i + 1..]) + [s[i]]
  {
    assert s[i..][1..] == s[i + 1..];
  }

  lemma {:induction false} ReverseConcat(a: seq<Card>, b: seq<Card>)
    ensures Reverse(a + b) == Reverse(b) + Reverse(a)
  {
    if a == [] {
      assert a + b == b;
    } else {
      assert (a + b)[1..] == a[1..] + b;
      ReverseConcat(a[1..], b);
    }
  }

  lemma FlippedConcat(a: seq<Card>, b: seq<Card>, up: bool)
    ensures Flipped(a + b, up) == Flipped(a, up) + Flipped(b, up)
  {
  }

  lemma FlippedSnoc(a: seq<Card>, x: Card, up: bool)
    ensures Flipped(a + [x], up) == Flipped(a, up) + [x.(faceUp := up)]
  {
  }

  predicate AllFaceUp(s: seq<Card>) { forall i :: 0 <= i < |s| ==> s[i].faceUp }
  predicate AllFaceDown(s: seq<Card>) { forall i :: 0 <= i < |s| ==> !s[i].faceUp }

  /** In a tableau column no face-down card lies above a face-up one. */
  predicate FaceDownPrefix(s: seq<Card>)
  {
    forall i, j :: 0 <= i < j < |s| && s[i].faceUp ==> s[j].faceUp
  }

  /** Reversing a face-up copy, then turning it face-down and reversing again,
      gives back a face-down pile in its first order. */
  lemma FlipReverseRoundTrip(s: seq<Card>)
    requires AllFaceDown(s)
    ensures Flipped(Reverse(Flipped(Reverse(s), true)), false) == s
  {
    var r := Flipped(Reverse(Flipped(Reverse(s), true)), false);
    forall k | 0 <= k < |s| ensures r[k] == s[k] {
      ReverseAt(Flipped(Reverse(s), true), k);
      ReverseAt(s, |s| - 1 - k);
    }
  }

  // ---------------------------------------------------------------------------
  // Card identities held by a pile, and by a row of piles.

  /** The identities of a pile, position by position. */
  function IdSeq(s: seq<Card>): (r: seq<CardId>)
    ensures |r| == |s| && forall i :: 0 <= i < |s| ==> r[i] == s[i].Id()
  {
    seq(|s|, i requires 0 <= i < |s| => s[i].Id())
  }

  /** The identities a pile holds, with multiplicity. */
  function Ids(s: seq<Card>): multiset<CardId>
  {
    multiset(IdSeq(s))
  }

  function AllIds(ps: seq<seq<Card>>): multiset<CardId>
  {
    if ps == [] then multiset{} else AllIds(ps[..|ps| - 1]) + Ids(ps[|ps| - 1])
  }

  lemma IdsConcat(a: seq<Card>, b: seq<Card>)
    ensures Ids(a + b) == Ids(a) + Ids(b)
  {
    assert IdSeq(a + b) == IdSeq(a) + IdSeq(b);
  }

  /** Two piles holding the same identities position by position (the face-up
      flags may differ) hold the same multiset of identities. */
  lemma IdsPointwise(a: seq<Card>, b: seq<Card>)
    requires |a| == |b|
    requires forall i :: 0 <= i < |a| ==> Same(a[i], b[i])
    ensures Ids(a) == Ids(b)
  {
    assert IdSeq(a) == IdSeq(b);
  }

  lemma IdsFlipped(s: seq<Card>, up: bool)
    ensures Ids(Flipped(s, up)) == Ids(s)
  {
    IdsPointwise(s, Flipped(s, up));
  }

  lemma {:induction false} IdsReverse(s: seq<Card>)
    ensures Ids(Reverse(s)) == Ids(s)
  {
    if s != [] {
      var head, tail := [s[0]], s[1..];
      calc {
        Ids(Reverse(s));
        Ids(Reverse(tail) + head);
        { IdsConcat(Reverse(tail), head); }
        Ids(Reverse(tail)) + Ids(head);
        { IdsReverse(tail); }
        Ids(tail) + Ids(head);
        { IdsConcat(head, tail); assert head + tail == s; }
        Ids(s);
      }
    }
  }

  /** Replacing one card changes the identities by exactly the old and the new card. */
  lemma IdsUpdate(s: seq<Card>, i: nat, x: Card)
    requires i < |s|
    ensures Ids(s[i := x]) + multiset{s[i].Id()} == Ids(s) + multiset{x.Id()}
  {
    assert IdSeq(s[i := x]) == IdSeq(s)[i := x.Id()];
  }

  lemma IdsSplit(s: seq<Card>, k: nat)
    requires k <= |s|
    ensures Ids(s) == Ids(s[..k]) + Ids(s[k..])
  {
    assert s == s[..k] + s[k..];
    IdsConcat(s[..k], s[k..]);
  }

  /** Replacing one pile of a row changes the row's identities by exactly the
      identities of the old and the new pile. */
  lemma {:induction false} AllIdsUpdate(ps: seq<seq<Card>>, i: nat, x: seq<Card>)
    requires i < |ps|
    ensures AllIds(ps[i := x]) + Ids(ps[i]) == AllIds(ps) + Ids(x)
  {
    var n, q := |ps| - 1, ps[i := x];
    if i < n {
      assert ps[..n][i] == ps[i];
      assert q[..n] == ps[..n][i := x];
      AllIdsUpdate(ps[..n], i, x);
      AddBoth(AllIds(q[..n]), AllIds(ps[..n]), Ids(ps[i]), Ids(x), Ids(ps[n]));
    } else {
      assert q[..n] == ps[..n];
    }
  }

  /** Adding the same multiset to both sides of an equation of sums. */
  lemma AddBoth(a: multiset<CardId>, b: multiset<CardId>, c: multiset<CardId>, d: multiset<CardId>,
                t: multiset<CardId>)
    requires a + c == b + d
    ensures a + t + c == b + t + d
  {
    forall id ensures (a + t + c)[id] == (b + t + d)[id] {
      assert (a + c)[id] == (b + d)[id];
    }
  }

  /** A card is in a row of piles when it lies in one of its piles. */
  lemma {:induction false} AllIdsContains(ps: seq<seq<Card>>, i: nat)
    requires i < |ps|
    ensures Ids(ps[i]) <= AllIds(ps)
  {
    if i < |ps| - 1 {
      AllIdsContains(ps[..|ps| - 1], i);
    }
  }

  /** A pile holds an identity exactly when one of its positions carries it. */
  lemma IdsMembers(s: seq<Card>, id: CardId)
    ensures id in Ids(s) <==> exists i :: 0 <= i < |s| && s[i].Id() == id
  {
    if id in Ids(s) {
      var i :| 0 <= i < |s| && IdSeq(s)[i] == id;
    }
  }
}
