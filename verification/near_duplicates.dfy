/**
 * The bullet de-duplication shared by the job-description parser and the
 * aggressive fallback: an item is dropped when its normalised form (lower
 * case, trimmed) and the normalised form of an already kept item contain
 * one another and the shorter is more than 80% as long as the longer; only
 * items whose normalised form is longer than 30 characters are kept.
 */
module NearDuplicates {
  import opened Text
  import opened Collections

  /** `item.lower().strip()` */
  function Normalize(s: string): string {
    Strip(Lower(s))
  }

  /** One contains the other and the shorter is more than 80% of the longer (`shorter / longer > 0.8`). */
  predicate NearDuplicate(a: string, b: string) {
    var shorter := Min(|a|, |b|);
    var longer := Max(|a|, |b|);
    shorter > 0 && longer > 0 && (Contains(b, a) || Contains(a, b)) && 5 * shorter > 4 * longer
  }

  /** The 80% test does not depend on which of the two strings is the new one. */
  lemma NearDuplicateSymmetric(a: string, b: string)
    ensures NearDuplicate(a, b) <==> NearDuplicate(b, a)
  {
  }

  /** A non-empty string is a near-duplicate of itself; strings of very different lengths never are. */
  lemma NearDuplicateBounds(a: string, b: string)
    ensures a != [] ==> NearDuplicate(a, a)
    ensures 5 * |a| <= 4 * |b| ==> !NearDuplicate(a, b)
  {
    if a != [] {
      ContainsAt(a, a, 0);
    }
  }

  /** The normalised forms of the kept items: the `seen` set. */
  function Seen(kept: seq<string>, norm: string -> string): set<string> {
    set k | k in kept :: norm(k)
  }

  predicate DuplicateOfAny(n: string, seen: set<string>, dup: (string, string) -> bool) {
    exists s :: s in seen && dup(n, s)
  }

  /**
   * The de-duplication loop over `items`, for a normalisation `norm` and a
   * duplicate test `dup`: an item is kept when its normalised form is longer
   * than 30 characters and is not a duplicate of anything seen so far.
   */
  function KeptBy(items: seq<string>, norm: string -> string, dup: (string, string) -> bool): seq<string> {
    if items == [] then []
    else
      var prev := KeptBy(items[..|items| - 1], norm, dup);
      var item := items[|items| - 1];
      if !DuplicateOfAny(norm(item), Seen(prev, norm), dup) && |norm(item)| > 30 then prev + [item] else prev
  }

  /** The items the loop keeps, in first-seen order. */
  function Kept(items: seq<string>): seq<string> {
    KeptBy(items, Normalize, NearDuplicate)
  }

  lemma SeenAppend(kept: seq<string>, item: string, norm: string -> string)
    ensures Seen(kept + [item], norm) == Seen(kept, norm) + {norm(item)}
  {
  }

  lemma KeptByPrefix(init: seq<string>, item: string, norm: string -> string, dup: (string, string) -> bool)
    ensures KeptBy(init, norm, dup) <= KeptBy(init + [item], norm, dup)
    ensures Seen(KeptBy(init, norm, dup), norm) <= Seen(KeptBy(init + [item], norm, dup), norm)
  {
    assert (init + [item])[..|init|] == init;
  }

  lemma {:induction false} KeptByFrom(items: seq<string>, norm: string -> string, dup: (string, string) -> bool)
    ensures forall k :: k in KeptBy(items, norm, dup) ==> k in items && |norm(k)| > 30
  {
    if items != [] {
      var init := items[..|items| - 1];
      KeptByFrom(init, norm, dup);
      assert forall k :: k in init ==> k in items;
    }
  }

  /** No kept item is a duplicate of an earlier one. */
  predicate Apart(kept: seq<string>, norm: string -> string, dup: (string, string) -> bool) {
    forall i, j :: 0 <= i < j < |kept| ==> !dup(norm(kept[j]), norm(kept[i]))
  }

  lemma {:induction false} KeptByApart(items: seq<string>, norm: string -> string, dup: (string, string) -> bool)
    ensures Apart(KeptBy(items, norm, dup), norm, dup)
  {
    if items != [] {
      var init := items[..|items| - 1];
      var item := items[|items| - 1];
      KeptByApart(init, norm, dup);
      var prev := KeptBy(init, norm, dup);
      if !DuplicateOfAny(norm(item), Seen(prev, norm), dup) && |norm(item)| > 30 {
        var kept := prev + [item];
        assert KeptBy(items, norm, dup) == kept;
        forall i, j | 0 <= i < j < |kept| ensures !dup(norm(kept[j]), norm(kept[i])) {
          if j == |prev| {
            assert kept[j] == item && kept[i] == prev[i];
            assert norm(prev[i]) in Seen(prev, norm);
          } else {
            assert kept[i] == prev[i] && kept[j] == prev[j];
          }
        }
      } else {
        assert KeptBy(items, norm, dup) == prev;
      }
    }
  }

  lemma {:induction false} KeptByCovers(items: seq<string>, norm: string -> string, dup: (string, string) -> bool)
    ensures var kept := KeptBy(items, norm, dup);
            forall x :: x in items && |norm(x)| > 30 ==> x in kept || DuplicateOfAny(norm(x), Seen(kept, norm), dup)
  {
    if items != [] {
      var init := items[..|items| - 1];
      var item := items[|items| - 1];
      KeptByCovers(init, norm, dup);
      KeptByPrefix(init, item, norm, dup);
      assert items == init + [item];
      var prev := KeptBy(init, norm, dup);
      var kept := KeptBy(items, norm, dup);
      forall x | x in items && |norm(x)| > 30
        ensures x in kept || DuplicateOfAny(norm(x), Seen(kept, norm), dup)
      {
        if x in init {
          if x !in prev {
            var s :| s in Seen(prev, norm) && dup(norm(x), s);
            assert s in Seen(kept, norm);
          }
        } else if kept == prev {
          var s :| s in Seen(prev, norm) && dup(norm(item), s);
          assert s in Seen(kept, norm);
        }
      }
    }
  }

  /**
   * Every kept item comes from the input and normalises to more than 30
   * characters; no two kept items are near-duplicates of each other; and an
   * input item long enough to keep is either kept or a near-duplicate of a
   * kept item.
   */
  lemma KeptSpec(items: seq<string>)
    ensures forall k :: k in Kept(items) ==> k in items && |Normalize(k)| > 30
    ensures Apart(Kept(items), Normalize, NearDuplicate)
    ensures forall x :: x in items && |Normalize(x)| > 30 ==>
              x in Kept(items) || exists k :: k in Kept(items) && NearDuplicate(Normalize(x), Normalize(k))
  {
    KeptByFrom(items, Normalize, NearDuplicate);
    KeptByApart(items, Normalize, NearDuplicate);
    KeptByCovers(items, Normalize, NearDuplicate);
    var kept := Kept(items);
    forall x | x in items && |Normalize(x)| > 30 && x !in kept
      ensures exists k :: k in kept && NearDuplicate(Normalize(x), Normalize(k))
    {
      var s :| s in Seen(kept, Normalize) && NearDuplicate(Normalize(x), s);
      var k :| k in kept && Normalize(k) == s;
    }
  }

  /** The inner loop: is `n` a near-duplicate of anything already seen?  It stops at the first hit. */
  method IsNearDuplicateOfSeen(n: string, seen: set<string>) returns (isDup: bool)
    ensures isDup <==> DuplicateOfAny(n, seen, NearDuplicate)
  {
    var rest := seen;
    isDup := false;
    while rest != {}
      invariant rest <= seen
      invariant forall s :: s in seen && s !in rest ==> !NearDuplicate(n, s)
      decreases |rest|
    {
      var s :| s in rest;
      var shorter := Min(|n|, |s|);
      var longer := Max(|n|, |s|);
      if shorter > 0 && longer > 0 {
        if Contains(s, n) || Contains(n, s) {
          if 5 * shorter > 4 * longer {
            isDup := true;
            return;
          }
        }
      }
      rest := rest - {s};
    }
  }

  /** The de-duplication loop with its `seen` set. */
  method UniqueItems(items: seq<string>) returns (unique: seq<string>)
    ensures unique == Kept(items)
  {
    var seen: set<string> := {};
    unique := [];
    var i := 0;
    while i < |items|
      invariant 0 <= i <= |items|
      invariant unique == Kept(items[..i]) && seen == Seen(unique, Normalize)
    {
      assert items[..i + 1][..i] == items[..i];
      var item := items[i];
      var n := Lower(item);
      n := Strip(n);
      var isDup := IsNearDuplicateOfSeen(n, seen);
      if !isDup && |n| > 30 {
        SeenAppend(unique, item, Normalize);
        seen := seen + {n};
        unique := unique + [item];
      }
      i := i + 1;
    }
    assert items[..i] == items;
  }
}
