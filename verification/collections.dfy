/** Small facts about Python lists and sets used by several modules. */
module Collections {
  import opened Wrappers

  function Min(a: int, b: int): int {
    if a <= b then a else b
  }

  function Max(a: int, b: int): int {
    if a >= b then a else b
  }

  /** No element occurs twice. */
  predicate NoDuplicates<T(==)>(s: seq<T>) {
    forall i, j :: 0 <= i < j < |s| ==> s[i] != s[j]
  }

  lemma NoDuplicatesAppend<T>(s: seq<T>, x: T)
    requires NoDuplicates(s) && x !in s
    ensures NoDuplicates(s + [x])
  {
  }

  lemma NoDuplicatesPrefix<T>(s: seq<T>, n: nat)
    requires NoDuplicates(s) && n <= |s|
    ensures NoDuplicates(s[..n])
  {
  }

  /** A subset is no larger than its superset. */
  lemma {:induction false} SubsetCard<T>(a: set<T>, b: set<T>)
    requires a <= b
    ensures |a| <= |b|
  {
    if a != {} {
      var x :| x in a;
      SubsetCard(a - {x}, b - {x});
    }
  }

  /** A duplicate-free list has as many elements as the set of its elements. */
  lemma {:induction false} DistinctCard<T>(s: seq<T>)
    requires NoDuplicates(s)
    ensures |set x | x in s| == |s|
  {
    if s != [] {
      var t := s[..|s| - 1];
      DistinctCard(t);
      assert (set x | x in s) == (set x | x in t) + {s[|s| - 1]};
    }
  }

  /** `list(some_set)`: the elements of a set in an unspecified order. */
  method ListOf<T>(s: set<T>) returns (r: seq<T>)
    ensures NoDuplicates(r) && |r| == |s|
    ensures forall x :: x in r <==> x in s
  {
    r := [];
    var rest := s;
    while rest != {}
      invariant rest <= s
      invariant NoDuplicates(r)
      invariant forall x :: x in r <==> x in s && x !in rest
      invariant |r| + |rest| == |s|
      decreases |rest|
    {
      var x :| x in rest;
      r := r + [x];
      rest := rest - {x};
    }
  }

  /** `list(dict.fromkeys(items))`: the first occurrence of each element, in order. */
  function Dedup<T(==, !new)>(s: seq<T>): (r: seq<T>)
    ensures NoDuplicates(r)
    ensures forall x :: x in r <==> x in s
    ensures |r| <= |s|
  {
    if s == [] then []
    else
      var p := Dedup(s[..|s| - 1]);
      if s[|s| - 1] in p then p else p + [s[|s| - 1]]
  }

  /** Deduplicating keeps a list that already has no duplicates unchanged. */
  lemma {:induction false} DedupDistinct<T(!new)>(s: seq<T>)
    requires NoDuplicates(s)
    ensures Dedup(s) == s
  {
    if s != [] {
      DedupDistinct(s[..|s| - 1]);
    }
  }

  /** Deduplication keeps the first occurrences in their original relative order. */
  lemma {:induction false} DedupPrefix<T(!new)>(s: seq<T>, t: seq<T>)
    ensures Dedup(s) <= Dedup(s + t)
    decreases |t|
  {
    if t != [] {
      var u := s + t[..|t| - 1];
      DedupPrefix(s, t[..|t| - 1]);
      assert (s + t)[..|s + t| - 1] == u;
    } else {
      assert s + t == s;
    }
  }

  /** `for y in ys: if y not in xs: xs.append(y)` */
  function AppendAbsent<T(==)>(xs: seq<T>, ys: seq<T>): seq<T> {
    if ys == [] then xs
    else
      var acc := AppendAbsent(xs, ys[..|ys| - 1]);
      if ys[|ys| - 1] in acc then acc else acc + [ys[|ys| - 1]]
  }

  /** Appending the absent items keeps the list as a prefix, adds exactly the items, and never duplicates. */
  lemma {:induction false} AppendAbsentSpec<T>(xs: seq<T>, ys: seq<T>)
    ensures xs <= AppendAbsent(xs, ys)
    ensures forall x :: x in AppendAbsent(xs, ys) <==> x in xs || x in ys
    ensures NoDuplicates(xs) ==> NoDuplicates(AppendAbsent(xs, ys))
    ensures |AppendAbsent(xs, ys)| <= |xs| + |ys|
  {
    if ys != [] {
      var init := ys[..|ys| - 1];
      AppendAbsentSpec(xs, init);
      assert ys == init + [ys[|ys| - 1]];
    }
  }

  /** One more item offered to `AppendAbsent`. */
  lemma AppendAbsentSnoc<T>(ys: seq<T>, y: T)
    ensures AppendAbsent([], ys + [y]) == if y in AppendAbsent([], ys) then AppendAbsent([], ys) else AppendAbsent([], ys) + [y]
  {
    assert (ys + [y])[..|ys|] == ys;
  }

  lemma AppendAbsentOne<T>(xs: seq<T>, x: T)
    ensures AppendAbsent(xs, [x]) == if x in xs then xs else xs + [x]
  {
    assert [x][..0] == [];
  }

  /** Appending the absent items of `a + b` is appending those of `a`, then those of `b`. */
  lemma {:induction false} AppendAbsentConcat<T>(xs: seq<T>, a: seq<T>, b: seq<T>)
    ensures AppendAbsent(xs, a + b) == AppendAbsent(AppendAbsent(xs, a), b)
  {
    if b == [] {
      assert a + b == a;
    } else {
      var init := b[..|b| - 1];
      AppendAbsentConcat(xs, a, init);
      assert (a + b)[..|a + b| - 1] == a + init;
      assert (a + b)[|a + b| - 1] == b[|b| - 1];
    }
  }

  /** The loop `for y in ys: if y not in xs: xs.append(y)`. */
  method AppendAbsentLoop<T(==)>(xs: seq<T>, ys: seq<T>) returns (r: seq<T>)
    ensures r == AppendAbsent(xs, ys)
  {
    r := xs;
    var j := 0;
    while j < |ys|
      invariant 0 <= j <= |ys|
      invariant r == AppendAbsent(xs, ys[..j])
    {
      assert ys[..j + 1][..j] == ys[..j];
      if ys[j] !in r {
        r := r + [ys[j]];
      }
      j := j + 1;
    }
    assert ys[..j] == ys;
  }

  /** `[x for x in s if keep(x)]` */
  function Filter<T>(s: seq<T>, keep: T -> bool): (r: seq<T>)
    ensures |r| <= |s|
  {
    if s == [] then []
    else
      var prev := Filter(s[..|s| - 1], keep);
      if keep(s[|s| - 1]) then prev + [s[|s| - 1]] else prev
  }

  /** The filtered list holds exactly the kept elements. */
  lemma {:induction false} FilterSpec<T>(s: seq<T>, keep: T -> bool)
    ensures forall x :: x in Filter(s, keep) <==> x in s && keep(x)
  {
    if s != [] {
      var init := s[..|s| - 1];
      FilterSpec(init, keep);
      assert s == init + [s[|s| - 1]];
    }
  }

  /** `{f(x) for x in xs}`, built element by element. */
  function Image<T, U>(xs: seq<T>, f: T -> U): set<U> {
    if xs == [] then {} else Image(xs[..|xs| - 1], f) + {f(xs[|xs| - 1])}
  }

  /** The image holds exactly the values `f` takes on the list. */
  lemma {:induction false} ImageSpec<T, U>(xs: seq<T>, f: T -> U, y: U)
    ensures y in Image(xs, f) <==> exists i :: 0 <= i < |xs| && f(xs[i]) == y
  {
    if xs != [] {
      var init := xs[..|xs| - 1];
      ImageSpec(init, f, y);
      if exists i :: 0 <= i < |xs| && f(xs[i]) == y {
        var i :| 0 <= i < |xs| && f(xs[i]) == y;
        if i < |init| {
          assert init[i] == xs[i];
        }
      }
      if y in Image(init, f) {
        var i :| 0 <= i < |init| && f(init[i]) == y;
        assert xs[i] == init[i];
      }
    }
  }

  lemma ImageNext<T, U>(xs: seq<T>, i: int, f: T -> U)
    requires 0 <= i < |xs|
    ensures Image(xs[..i + 1], f) == Image(xs[..i], f) + {f(xs[i])}
  {
    assert xs[..i + 1][..i] == xs[..i];
  }

  /** A loop that updates a state once per element, left to right. */
  function FoldLeft<S, T>(st: S, xs: seq<T>, step: (S, T) -> S): S {
    if xs == [] then st else step(FoldLeft(st, xs[..|xs| - 1], step), xs[|xs| - 1])
  }

  /** Running a loop over `a + b` is running it over `a`, then over `b`. */
  lemma {:induction false} FoldLeftAppend<S, T>(st: S, a: seq<T>, b: seq<T>, step: (S, T) -> S)
    ensures FoldLeft(st, a + b, step) == FoldLeft(FoldLeft(st, a, step), b, step)
    decreases |b|
  {
    if b == [] {
      assert a + b == a;
    } else {
      FoldLeftAppend(st, a, b[..|b| - 1], step);
      assert (a + b)[..|a + b| - 1] == a + b[..|b| - 1];
    }
  }

  /** One more iteration of the loop. */
  lemma FoldLeftNext<S, T>(st: S, xs: seq<T>, i: int, step: (S, T) -> S)
    requires 0 <= i < |xs|
    ensures FoldLeft(st, xs[..i + 1], step) == step(FoldLeft(st, xs[..i], step), xs[i])
  {
    assert xs[..i + 1][..i] == xs[..i];
  }

  /** All the lists, one after another. */
  function Flatten<T>(xss: seq<seq<T>>): seq<T> {
    if xss == [] then [] else Flatten(xss[..|xss| - 1]) + xss[|xss| - 1]
  }

  lemma FlattenSnoc<T>(xss: seq<seq<T>>, xs: seq<T>)
    ensures Flatten(xss + [xs]) == Flatten(xss) + xs
  {
    assert (xss + [xs])[..|xss|] == xss;
  }

  /** Flattening non-empty lists gives at least one element per list. */
  lemma {:induction false} FlattenLength<T>(xss: seq<seq<T>>)
    requires forall k :: 0 <= k < |xss| ==> xss[k] != []
    ensures |xss| <= |Flatten(xss)|
  {
    if xss != [] {
      FlattenLength(xss[..|xss| - 1]);
    }
  }

  /** `[f(x) for x in xs if f(x) is not None]`, left to right. */
  function FilterMap<T, U>(xs: seq<T>, f: T -> Option<U>): (r: seq<U>)
    ensures |r| <= |xs|
  {
    if xs == [] then []
    else
      var prev := FilterMap(xs[..|xs| - 1], f);
      match f(xs[|xs| - 1])
      case Some(u) => prev + [u]
      case None => prev
  }

  /** One more iteration of a loop that appends what `f` finds. */
  lemma FilterMapNext<T, U>(xs: seq<T>, i: int, f: T -> Option<U>)
    requires 0 <= i < |xs|
    ensures FilterMap(xs[..i + 1], f) == FilterMap(xs[..i], f) + (if f(xs[i]).Some? then [f(xs[i]).value] else [])
  {
    assert xs[..i + 1][..i] == xs[..i];
  }

  /** Everything kept is what `f` made of some element. */
  lemma {:induction false} FilterMapFrom<T, U>(xs: seq<T>, f: T -> Option<U>)
    ensures forall u :: u in FilterMap(xs, f) ==> exists x :: x in xs && f(x) == Some(u)
  {
    if xs != [] {
      var init := xs[..|xs| - 1];
      FilterMapFrom(init, f);
      assert forall x :: x in init ==> x in xs;
      var last := xs[|xs| - 1];
      if f(last).Some? {
        assert FilterMap(xs, f) == FilterMap(init, f) + [f(last).value];
      } else {
        assert FilterMap(xs, f) == FilterMap(init, f);
      }
    }
  }

  /** Everything `f` makes of an element is kept. */
  lemma {:induction false} FilterMapHas<T, U>(xs: seq<T>, f: T -> Option<U>, i: int)
    requires 0 <= i < |xs| && f(xs[i]).Some?
    ensures f(xs[i]).value in FilterMap(xs, f)
  {
    var init := xs[..|xs| - 1];
    if i < |xs| - 1 {
      FilterMapHas(init, f, i);
      assert init[i] == xs[i];
    }
  }

  /** What a scanning loop does with one element: skip it, stop, or keep a value. */
  datatype Scan<U> = Skip | Stop | Keep(value: U)

  /** A loop that collects the kept values until the first element that stops it. */
  function ScanUntilStop<T, U>(xs: seq<T>, f: T -> Scan<U>): (r: seq<U>)
    ensures |r| <= |xs|
  {
    if xs == [] then []
    else
      match f(xs[0])
      case Skip => ScanUntilStop(xs[1..], f)
      case Stop => []
      case Keep(u) => [u] + ScanUntilStop(xs[1..], f)
  }

  /** One iteration of the scanning loop, from position `i`. */
  lemma ScanStep<T, U>(xs: seq<T>, i: int, f: T -> Scan<U>)
    requires 0 <= i < |xs|
    ensures f(xs[i]).Skip? ==> ScanUntilStop(xs[i..], f) == ScanUntilStop(xs[i + 1..], f)
    ensures f(xs[i]).Stop? ==> ScanUntilStop(xs[i..], f) == []
    ensures f(xs[i]).Keep? ==> ScanUntilStop(xs[i..], f) == [f(xs[i]).value] + ScanUntilStop(xs[i + 1..], f)
  {
    assert xs[i..][0] == xs[i] && xs[i..][1..] == xs[i + 1..];
  }

  /** Nothing from the stopping element on matters. */
  lemma {:induction false} ScanStops<T, U>(xs: seq<T>, i: int, f: T -> Scan<U>)
    requires 0 <= i < |xs| && f(xs[i]).Stop?
    ensures ScanUntilStop(xs, f) == ScanUntilStop(xs[..i], f)
  {
    if i == 0 {
      assert xs[..0] == [];
    } else {
      ScanStops(xs[1..], i - 1, f);
      assert xs[1..][..i - 1] == xs[..i][1..];
      assert xs[..i][0] == xs[0];
      match f(xs[0])
      case Skip =>
      case Stop =>
      case Keep(u) =>
    }
  }

  /** Everything collected was kept from some element. */
  lemma {:induction false} ScanKept<T, U>(xs: seq<T>, f: T -> Scan<U>)
    ensures forall u :: u in ScanUntilStop(xs, f) ==> exists x :: x in xs && f(x) == Keep(u)
  {
    if xs != [] {
      ScanKept(xs[1..], f);
      assert forall x :: x in xs[1..] ==> x in xs;
    }
  }

  /** The scanning loop itself: `for x in xs:` with `continue`, `break` and `append`. */
  method ScanLoop<T, U>(xs: seq<T>, f: T -> Scan<U>) returns (r: seq<U>)
    ensures r == ScanUntilStop(xs, f)
  {
    r := [];
    var i := 0;
    while i < |xs|
      invariant 0 <= i <= |xs|
      invariant r + ScanUntilStop(xs[i..], f) == ScanUntilStop(xs, f)
    {
      ScanStep(xs, i, f);
      var c := f(xs[i]);
      if c.Stop? {
        assert r + [] == r;
        return;
      }
      if c.Keep? {
        r := r + [c.value];
      }
      i := i + 1;
    }
    assert r + [] == r;
  }

  /** `[y for x in xs for y in f(x)]`, left to right. */
  function FlatMap<T, U>(xs: seq<T>, f: T -> seq<U>): seq<U> {
    if xs == [] then [] else FlatMap(xs[..|xs| - 1], f) + f(xs[|xs| - 1])
  }

  lemma FlatMapNext<T, U>(xs: seq<T>, i: int, f: T -> seq<U>)
    requires 0 <= i < |xs|
    ensures FlatMap(xs[..i + 1], f) == FlatMap(xs[..i], f) + f(xs[i])
  {
    assert xs[..i + 1][..i] == xs[..i];
  }

  /** Every element produced comes from some input element. */
  lemma {:induction false} FlatMapFrom<T, U>(xs: seq<T>, f: T -> seq<U>)
    ensures forall u :: u in FlatMap(xs, f) ==> exists x :: x in xs && u in f(x)
  {
    if xs != [] {
      var init := xs[..|xs| - 1];
      FlatMapFrom(init, f);
      assert forall x :: x in init ==> x in xs;
      assert xs[|xs| - 1] in xs;
    }
  }

  /** The loop `for x in xs: y = f(x); if y is not None: r.append(y)`. */
  method FilterMapLoop<T, U>(xs: seq<T>, f: T -> Option<U>) returns (r: seq<U>)
    ensures r == FilterMap(xs, f)
  {
    r := [];
    var i := 0;
    while i < |xs|
      invariant 0 <= i <= |xs|
      invariant r == FilterMap(xs[..i], f)
    {
      FilterMapNext(xs, i, f);
      var y := f(xs[i]);
      if y.Some? {
        r := r + [y.value];
      }
      i := i + 1;
    }
    assert xs[..i] == xs;
  }

  /** `for x in xs: y = f(x); if y is not None and y not in r: r.append(y)` */
  method DistinctFilterMapLoop<T, U(==)>(xs: seq<T>, f: T -> Option<U>) returns (r: seq<U>)
    ensures r == AppendAbsent([], FilterMap(xs, f))
  {
    r := [];
    var i := 0;
    while i < |xs|
      invariant 0 <= i <= |xs|
      invariant r == AppendAbsent([], FilterMap(xs[..i], f))
    {
      FilterMapNext(xs, i, f);
      var y := f(xs[i]);
      if y.Some? {
        AppendAbsentSnoc(FilterMap(xs[..i], f), y.value);
        assert FilterMap(xs[..i + 1], f) == FilterMap(xs[..i], f) + [y.value];
        if y.value !in r {
          r := r + [y.value];
        }
      } else {
        assert FilterMap(xs[..i + 1], f) == FilterMap(xs[..i], f);
      }
      i := i + 1;
    }
    assert xs[..i] == xs;
  }

  /** The first value `f` finds along `xs`, if any: a loop that stops at its first hit. */
  function FirstHit<T, U>(xs: seq<T>, f: T -> Option<U>): (r: Option<U>)
    ensures r.Some? ==> exists k :: 0 <= k < |xs| && f(xs[k]) == r
  {
    if xs == [] then None
    else if f(xs[0]).Some? then f(xs[0])
    else
      var r := FirstHit(xs[1..], f);
      assert forall k :: 1 <= k < |xs| ==> xs[1..][k - 1] == xs[k];
      r
  }

  /** The hit is the first element `f` finds anything in, and there is none exactly when `f` finds nothing. */
  lemma {:induction false} FirstHitSpec<T, U>(xs: seq<T>, f: T -> Option<U>)
    ensures FirstHit(xs, f).None? <==> forall k :: 0 <= k < |xs| ==> f(xs[k]).None?
    ensures FirstHit(xs, f).Some? ==>
              exists k :: 0 <= k < |xs| && f(xs[k]) == FirstHit(xs, f) && forall j :: 0 <= j < k ==> f(xs[j]).None?
  {
    if xs != [] && f(xs[0]).None? {
      var rest := xs[1..];
      FirstHitSpec(rest, f);
      assert forall k :: 1 <= k < |xs| ==> rest[k - 1] == xs[k];
      if FirstHit(rest, f).Some? {
        var k :| 0 <= k < |rest| && f(rest[k]) == FirstHit(rest, f) && forall j :: 0 <= j < k ==> f(rest[j]).None?;
        assert f(xs[k + 1]) == FirstHit(xs, f);
      }
    }
  }

  /** The loop that returns at the first element `f` finds anything in. */
  method FirstHitLoop<T, U>(xs: seq<T>, f: T -> Option<U>) returns (r: Option<U>)
    ensures r == FirstHit(xs, f)
  {
    var i := 0;
    while i < |xs|
      invariant 0 <= i <= |xs|
      invariant FirstHit(xs[i..], f) == FirstHit(xs, f)
    {
      assert xs[i..][0] == xs[i] && xs[i..][1..] == xs[i + 1..];
      r := f(xs[i]);
      if r.Some? {
        return;
      }
      i := i + 1;
    }
    r := None;
  }

  /** The first value `f` finds along `xs` from position `i` on, `f` seeing each position as well. */
  function FirstHitFrom<T, U>(xs: seq<T>, f: (nat, T) -> Option<U>, i: nat): (r: Option<U>)
    ensures r.Some? ==> exists k :: i <= k < |xs| && f(k, xs[k]) == r
    decreases |xs| - i
  {
    if i >= |xs| then None
    else if f(i, xs[i]).Some? then f(i, xs[i])
    else FirstHitFrom(xs, f, i + 1)
  }

  /** When everything `f` finds satisfies `ok` with its element, so does the first hit. */
  lemma {:induction false} FirstHitFromOk<T, U>(xs: seq<T>, f: (nat, T) -> Option<U>, i: nat, ok: (T, U) -> bool)
    requires forall k: nat, x: T :: f(k, x).Some? ==> ok(x, f(k, x).value)
    ensures FirstHitFrom(xs, f, i).Some? ==> exists k :: i <= k < |xs| && ok(xs[k], FirstHitFrom(xs, f, i).value)
    decreases |xs| - i
  {
    if i < |xs| && f(i, xs[i]).None? {
      FirstHitFromOk(xs, f, i + 1, ok);
    }
  }

  lemma FirstHitFromFirst<T, U>(xs: seq<T>, f: (nat, T) -> Option<U>)
    requires xs != [] && f(0, xs[0]).Some?
    ensures FirstHitFrom(xs, f, 0) == f(0, xs[0])
  {
  }

  /** The loop with an index that returns at the first position `f` finds anything at. */
  method FirstHitFromLoop<T, U>(xs: seq<T>, f: (nat, T) -> Option<U>) returns (r: Option<U>)
    ensures r == FirstHitFrom(xs, f, 0)
  {
    var i := 0;
    while i < |xs|
      invariant 0 <= i <= |xs|
      invariant FirstHitFrom(xs, f, i) == FirstHitFrom(xs, f, 0)
    {
      r := f(i, xs[i]);
      if r.Some? {
        return;
      }
      i := i + 1;
    }
    r := None;
  }

  /** The least position from `i` on and below `n` where `p` holds. */
  function FirstIndex(n: nat, p: nat -> bool, i: nat): (r: Option<nat>)
    ensures r.Some? ==> i <= r.value < n && p(r.value)
    decreases n - i
  {
    if i >= n then None
    else if p(i) then Some(i)
    else FirstIndex(n, p, i + 1)
  }

  lemma {:induction false} FirstIndexIs(n: nat, p: nat -> bool, i: nat, j: nat)
    requires i <= j < n && p(j) && forall m: nat :: i <= m < j ==> !p(m)
    ensures FirstIndex(n, p, i) == Some(j)
    decreases j - i
  {
    if i < j {
      FirstIndexIs(n, p, i + 1, j);
    }
  }

  /** There is no such position exactly when `p` holds nowhere in range, and none before the one found. */
  lemma {:induction false} FirstIndexLeast(n: nat, p: nat -> bool, i: nat)
    ensures FirstIndex(n, p, i).None? <==> forall j: nat :: i <= j < n ==> !p(j)
    ensures FirstIndex(n, p, i).Some? ==> forall j: nat :: i <= j < FirstIndex(n, p, i).value ==> !p(j)
    decreases n - i
  {
    if i < n && !p(i) {
      FirstIndexLeast(n, p, i + 1);
    }
  }
}
