/**
 * The signal smoother: the functional state updaters that the analysis queue
 * applies to the emotion label, the intensity scalar and the keyword list
 * when a reply arrives (frontend/src/App.js, lines 121-129).
 */
module Smoother {
  import opened Opt

  /** The parsed body of a successful analysis reply. Every field may be absent. */
  datatype Response = Response(emotion: Option<string>, intensity: Option<real>, keywords: Option<seq<string>>)

  const DefaultEmotion: string := "calm"
  const DefaultIntensity: real := 0.5
  /** Weight of the previous intensity in the moving average. */
  const OldWeight: real := 0.7
  /** Weight of the new sample in the moving average. */
  const SampleWeight: real := 0.3
  /** `slice(-10)`: how many keywords are kept. */
  const MaxKeywords: nat := 10

  predicate InUnit(x: real) {
    0.0 <= x <= 1.0
  }

  // ---------------------------------------------------------------------------
  // Emotion: last write wins, with `||` falling back on a falsy label
  // ---------------------------------------------------------------------------

  /** `aiData.emotion || "calm"`: an absent or empty label is falsy. */
  function EmotionOf(r: Response): (e: string)
    ensures e != ""
    ensures e == DefaultEmotion || r.emotion == Some(e)
    ensures r.emotion.Some? && r.emotion.value != "" ==> e == r.emotion.value
  {
    if r.emotion.Some? && r.emotion.value != "" then r.emotion.value else DefaultEmotion
  }

  // ---------------------------------------------------------------------------
  // Intensity: exponential moving average with fixed weights
  // ---------------------------------------------------------------------------

  /** `aiData.intensity || 0.5`: an absent intensity, and an intensity of 0, are falsy. */
  function Sample(r: Response): (s: real)
    ensures s != 0.0
    ensures r.intensity.Some? && r.intensity.value != 0.0 ==> s == r.intensity.value
    ensures r.intensity.None? || r.intensity.value == 0.0 ==> s == DefaultIntensity
    ensures r.intensity.None? || InUnit(r.intensity.value) ==> InUnit(s)
  {
    if r.intensity.Some? && r.intensity.value != 0.0 then r.intensity.value else DefaultIntensity
  }

  /** `prev => prev * 0.7 + sample * 0.3`. */
  function Ema(prev: real, r: Response): (i: real)
    // the distance to the sample shrinks by the old value's weight
    ensures i - Sample(r) == OldWeight * (prev - Sample(r))
    // a convex combination: the result lies between the old value and the sample
    ensures prev <= Sample(r) ==> prev <= i <= Sample(r)
    ensures Sample(r) <= prev ==> Sample(r) <= i <= prev
    ensures InUnit(prev) && (r.intensity.None? || InUnit(r.intensity.value)) ==> InUnit(i)
  {
    prev * OldWeight + Sample(r) * SampleWeight
  }

  predicate SamplesInUnit(rs: seq<Response>) {
    forall k :: 0 <= k < |rs| ==> rs[k].intensity.None? || InUnit(rs[k].intensity.value)
  }

  /**
   * The intensity after the replies `rs` are applied one after another, in order. It
   * stays in [0,1] whatever number of replies with in-range intensities arrive.
   */
  function FoldEma(i0: real, rs: seq<Response>): (i: real)
    ensures rs == [] ==> i == i0
    ensures InUnit(i0) && SamplesInUnit(rs) ==> InUnit(i)
    decreases |rs|
  {
    if rs == [] then i0
    else
      assert SamplesInUnit(rs) ==> SamplesInUnit(rs[1..]) by {
        assert forall k :: 0 <= k < |rs[1..]| ==> rs[1..][k] == rs[k + 1];
      }
      FoldEma(Ema(i0, rs[0]), rs[1..])
  }

  /** Applying `a` and then `b` is applying `a + b`: the smoothing is a left fold in arrival order. */
  lemma {:induction false} FoldEmaAppend(i0: real, a: seq<Response>, b: seq<Response>)
    ensures FoldEma(i0, a + b) == FoldEma(FoldEma(i0, a), b)
    decreases |a|
  {
    if a == [] {
      assert a + b == b;
    } else {
      assert (a + b)[0] == a[0];
      assert (a + b)[1..] == a[1..] + b;
      FoldEmaAppend(Ema(i0, a[0]), a[1..], b);
    }
  }

  function Pow(x: real, n: nat): real {
    if n == 0 then 1.0 else x * Pow(x, n - 1)
  }

  /** `n` copies of one reply. */
  function Repeat(r: Response, n: nat): (rs: seq<Response>)
    ensures |rs| == n && forall k :: 0 <= k < n ==> rs[k] == r
  {
    if n == 0 then [] else [r] + Repeat(r, n - 1)
  }

  /** One step of the closed form, as plain algebra on the values involved. */
  lemma GapStep(s: real, i0: real, i1: real, p: real, q: real)
    requires i1 - s == OldWeight * (i0 - s) && q == OldWeight * p
    ensures s + p * (i1 - s) == s + q * (i0 - s)
  {
    assert p * (i1 - s) == p * (OldWeight * (i0 - s));
  }

  /** The closed form of the recurrence: after `n` equal samples `s`, the gap to `s` is `0.7^n` of the first gap. */
  lemma {:induction false} FoldEmaConstant(i0: real, r: Response, n: nat)
    ensures FoldEma(i0, Repeat(r, n)) == Sample(r) + Pow(OldWeight, n) * (i0 - Sample(r))
    decreases n
  {
    if n > 0 {
      var rs := Repeat(r, n);
      assert rs[0] == r && rs[1..] == Repeat(r, n - 1);
      var s, i1, p := Sample(r), Ema(i0, r), Pow(OldWeight, n - 1);
      FoldEmaConstant(i1, r, n - 1);
      GapStep(s, i0, i1, p, Pow(OldWeight, n));
    }
  }

  function WithIntensity(x: real): Response {
    Response(None, Some(x), None)
  }

  /**
   * Two replies from 0.5: intensity 1.0 gives 0.65; a following intensity of 0.0 is
   * falsy and counts as 0.5, so the result is 0.605.
   */
  lemma EmaTwoSteps()
    ensures FoldEma(0.5, [WithIntensity(1.0)]) == 0.65
    ensures FoldEma(0.5, [WithIntensity(1.0), WithIntensity(0.0)]) == 0.605
  {
    assert [WithIntensity(1.0), WithIntensity(0.0)][1..] == [WithIntensity(0.0)];
  }

  /** The smoothing is order-sensitive, which is why replies must be applied in arrival order. */
  lemma EmaOrderMatters()
    ensures FoldEma(0.5, [WithIntensity(1.0), WithIntensity(0.2)])
         != FoldEma(0.5, [WithIntensity(0.2), WithIntensity(1.0)])
  {
    assert [WithIntensity(1.0), WithIntensity(0.2)][1..] == [WithIntensity(0.2)];
    assert [WithIntensity(0.2), WithIntensity(1.0)][1..] == [WithIntensity(1.0)];
    assert FoldEma(0.5, [WithIntensity(1.0), WithIntensity(0.2)]) == 0.515;
    assert FoldEma(0.5, [WithIntensity(0.2), WithIntensity(1.0)]) == 0.587;
  }

  // ---------------------------------------------------------------------------
  // Keywords: `[...new Set([...prev, ...incoming])].slice(-10)`
  // ---------------------------------------------------------------------------

  predicate NoDup<T(==)>(s: seq<T>) {
    forall i, j :: 0 <= i < j < |s| ==> s[i] != s[j]
  }

  /**
   * The iteration order of a JavaScript `Set` built from `s`: each distinct element
   * once, at the position of its first insertion.
   */
  function Dedup<T(==,!new)>(s: seq<T>): (d: seq<T>)
    ensures NoDup(d)
    ensures forall x :: x in d <==> x in s
    ensures |d| <= |s|
    decreases |s|
  {
    if s == [] then []
    else
      var d := Dedup(s[..|s| - 1]);
      var x := s[|s| - 1];
      assert forall y :: y in s <==> y in s[..|s| - 1] || y == x by {
        assert s == s[..|s| - 1] + [x];
      }
      if x in d then d else d + [x]
  }

  /** The first index at which `x` occurs in `s`. */
  function FirstIndex<T(==,!new)>(s: seq<T>, x: T): (k: nat)
    requires x in s
    ensures k < |s| && s[k] == x && forall i :: 0 <= i < k ==> s[i] != x
  {
    if s[0] == x then 0 else 1 + FirstIndex(s[1..], x)
  }

  /** Any index holding the first occurrence of `x` is `FirstIndex(s, x)`. */
  lemma FirstIndexUnique<T(!new)>(s: seq<T>, x: T, k: nat)
    requires k < |s| && s[k] == x && forall i :: 0 <= i < k ==> s[i] != x
    ensures FirstIndex(s, x) == k
  {
  }

  lemma FirstIndexInPrefix<T(!new)>(p: seq<T>, q: seq<T>, x: T)
    requires x in p
    ensures FirstIndex(p + q, x) == FirstIndex(p, x)
  {
    var l := FirstIndex(p, x);
    assert forall i :: 0 <= i <= l ==> (p + q)[i] == p[i];
    FirstIndexUnique(p + q, x, l);
  }

  /**
   * Order preservation: the elements of `Dedup(s)` appear in the order of their first
   * occurrences in `s`. With `NoDup` and the element equivalence in `Dedup`'s own contract,
   * this determines `Dedup(s)` completely.
   */
  lemma {:induction false} DedupFirstOccurrenceOrder<T(!new)>(s: seq<T>)
    ensures forall i, j :: 0 <= i < j < |Dedup(s)| ==> FirstIndex(s, Dedup(s)[i]) < FirstIndex(s, Dedup(s)[j])
    decreases |s|
  {
    if s != [] {
      var p, x := s[..|s| - 1], s[|s| - 1];
      assert s == p + [x];
      var d, e := Dedup(p), Dedup(s);
      DedupFirstOccurrenceOrder(p);
      if x !in d {
        assert forall i :: 0 <= i < |p| ==> s[i] == p[i] && p[i] in d;
        FirstIndexUnique(s, x, |p|);
      }
      forall i, j | 0 <= i < j < |e|
        ensures FirstIndex(s, e[i]) < FirstIndex(s, e[j])
      {
        assert e[i] == d[i] && d[i] in d;
        FirstIndexInPrefix(p, [x], d[i]);
        if j < |d| {
          assert e[j] == d[j] && d[j] in d;
          FirstIndexInPrefix(p, [x], d[j]);
        }
      }
    }
  }

  /** A sequence without duplicates is its own `Set` order. */
  lemma {:induction false} DedupOfNoDup<T(!new)>(s: seq<T>)
    requires NoDup(s)
    ensures Dedup(s) == s
    decreases |s|
  {
    if s != [] {
      var p, x := s[..|s| - 1], s[|s| - 1];
      DedupOfNoDup(p);
      assert forall i :: 0 <= i < |p| ==> p[i] == s[i] != s[|s| - 1];
      assert p + [x] == s;
    }
  }

  /** Appending elements never reorders the `Set` built so far: its order is extended at the end. */
  lemma {:induction false} DedupPrefix<T(!new)>(a: seq<T>, b: seq<T>)
    ensures |Dedup(a)| <= |Dedup(a + b)| && Dedup(a + b)[..|Dedup(a)|] == Dedup(a)
    decreases |b|
  {
    if b == [] {
      assert a + b == a;
    } else {
      var b', x := b[..|b| - 1], b[|b| - 1];
      assert (a + b)[..|a + b| - 1] == a + b';
      assert (a + b)[|a + b| - 1] == x;
      DedupPrefix(a, b');
    }
  }

  /** Appending only elements already present leaves the `Set` order as it was. */
  lemma {:induction false} DedupCovered<T(!new)>(a: seq<T>, b: seq<T>)
    requires forall x :: x in b ==> x in a
    ensures Dedup(a + b) == Dedup(a)
    decreases |b|
  {
    if b == [] {
      assert a + b == a;
    } else {
      var b', x := b[..|b| - 1], b[|b| - 1];
      assert x in b;
      assert (a + b)[..|a + b| - 1] == a + b';
      assert (a + b)[|a + b| - 1] == x;
      DedupCovered(a, b');
    }
  }

  /** Inserting one element into a `Set`: known elements change nothing, a new one goes last. */
  lemma DedupSnoc<T(!new)>(a: seq<T>, x: T)
    ensures Dedup(a + [x]) == if x in a then Dedup(a) else Dedup(a) + [x]
  {
    assert (a + [x])[..|a|] == a;
  }

  /**
   * `s.slice(-n)`: the last `n` elements, or all of `s` when it is shorter.
   * Since `-0` is `0`, `s.slice(-0)` is all of `s`, too.
   */
  function Last<T>(s: seq<T>, n: nat): (t: seq<T>)
    ensures |t| == if |s| <= n || n == 0 then |s| else n
    ensures t == s[|s| - |t|..]
  {
    if |s| <= n || n == 0 then s else s[|s| - n..]
  }

  /** A suffix of a duplicate-free sequence is duplicate-free and draws on its elements. */
  lemma SuffixOfNoDup<T(!new)>(s: seq<T>, k: nat)
    requires NoDup(s) && k <= |s|
    ensures NoDup(s[k..]) && forall x :: x in s[k..] ==> x in s
  {
    assert forall i :: 0 <= i < |s| - k ==> s[k..][i] == s[k + i];
  }

  /** The keyword list after merging the keywords of one reply. */
  function MergeKeywords(prev: seq<string>, incoming: seq<string>): (m: seq<string>)
    ensures NoDup(m) && |m| <= MaxKeywords
    ensures forall x :: x in m ==> x in prev || x in incoming
    // the newest ten of the `Set` order, or all of it when it is shorter
    ensures |m| == if |Dedup(prev + incoming)| <= MaxKeywords then |Dedup(prev + incoming)| else MaxKeywords
    ensures m == Dedup(prev + incoming)[|Dedup(prev + incoming)| - |m|..]
    // no keyword is lost while the merged set has room for all of them
    ensures |Dedup(prev + incoming)| <= MaxKeywords ==> forall x :: x in prev || x in incoming ==> x in m
  {
    var d := Dedup(prev + incoming);
    var m := Last(d, MaxKeywords);
    SuffixOfNoDup(d, |d| - |m|);
    m
  }

  /** The elements of `b` that are not in `known`, in their order in `b`. */
  function Unknown<T(==,!new)>(known: seq<T>, b: seq<T>): (u: seq<T>)
    ensures forall y :: y in u <==> y in b && y !in known
    decreases |b|
  {
    if b == [] then []
    else
      var b', x := b[..|b| - 1], b[|b| - 1];
      assert b == b' + [x];
      Unknown(known, b') + if x in known then [] else [x]
  }

  /**
   * Adding elements to a duplicate-free sequence: the old elements keep their places
   * and the unknown new ones follow, once each, in order of first mention.
   */
  lemma {:induction false} DedupAfterNoDup<T(!new)>(prev: seq<T>, b: seq<T>)
    requires NoDup(prev)
    ensures Dedup(prev + b) == prev + Dedup(Unknown(prev, b))
    decreases |b|
  {
    if b == [] {
      assert prev + b == prev;
      DedupOfNoDup(prev);
    } else {
      var b', x := b[..|b| - 1], b[|b| - 1];
      assert prev + b == (prev + b') + [x];
      DedupAfterNoDup(prev, b');
      DedupSnoc(prev + b', x);
      var u' := Unknown(prev, b');
      assert b[..|b| - 1] == b';
      if x in prev {
        assert x in prev + b';
        assert Unknown(prev, b) == u';
      } else {
        assert (x in prev + b') == (x in b') == (x in u');
        assert Unknown(prev, b) == u' + [x];
        DedupSnoc(u', x);
      }
    }
  }

  /**
   * With a duplicate-free `prev`, the merged list is the last ten of `prev` followed by
   * the keywords not seen before: a keyword mentioned again does not move.
   */
  lemma MergeAppendsUnseen(prev: seq<string>, incoming: seq<string>)
    requires NoDup(prev)
    ensures MergeKeywords(prev, incoming) == Last(prev + Dedup(Unknown(prev, incoming)), MaxKeywords)
  {
    DedupAfterNoDup(prev, incoming);
  }

  /** If every new keyword is already known, a bounded duplicate-free list is unchanged. */
  lemma MergeKnownIsIdentity(prev: seq<string>, incoming: seq<string>)
    requires NoDup(prev) && |prev| <= MaxKeywords
    requires forall x :: x in incoming ==> x in prev
    ensures MergeKeywords(prev, incoming) == prev
  {
    DedupCovered(prev, incoming);
    DedupOfNoDup(prev);
  }

  /** Merging the same reply twice is merging it once, as long as nothing had to be dropped. */
  lemma MergeTwiceIsOnce(prev: seq<string>, incoming: seq<string>)
    requires |Dedup(prev + incoming)| <= MaxKeywords
    ensures MergeKeywords(MergeKeywords(prev, incoming), incoming) == MergeKeywords(prev, incoming)
  {
    MergeKnownIsIdentity(MergeKeywords(prev, incoming), incoming);
  }

  /** `if (aiData.keywords?.length > 0) setKeywords(merge)`. */
  function ApplyKeywords(prev: seq<string>, kws: Option<seq<string>>): (r: seq<string>)
    ensures kws.None? || kws.value == [] ==> r == prev
    ensures kws.Some? && kws.value != [] ==> r == MergeKeywords(prev, kws.value)
    ensures kws.Some? && kws.value != [] ==> NoDup(r) && |r| <= MaxKeywords
    ensures NoDup(prev) && |prev| <= MaxKeywords ==> NoDup(r) && |r| <= MaxKeywords
    ensures forall x :: x in r ==> x in prev || (kws.Some? && x in kws.value)
  {
    if kws.Some? && |kws.value| > 0 then MergeKeywords(prev, kws.value) else prev
  }

  /** Feeding `["joy", "joy", "hope"]` again and again from no keywords yields `["joy", "hope"]`. */
  lemma {:induction false} RepeatedFeedSettles(n: nat)
    requires n >= 1
    ensures FeedKeywords([], ["joy", "joy", "hope"], n) == ["joy", "hope"]
    decreases n
  {
    var incoming := ["joy", "joy", "hope"];
    if n == 1 {
      assert ([] + incoming)[..2] == ["joy", "joy"];
      assert ["joy", "joy"][..1] == ["joy"];
      assert Dedup(["joy"]) == ["joy"] by { assert ["joy"][..0] == []; }
      assert Dedup(["joy", "joy"]) == ["joy"];
      assert Dedup(incoming) == ["joy", "hope"];
    } else {
      RepeatedFeedSettles(n - 1);
      MergeKnownIsIdentity(["joy", "hope"], incoming);
    }
  }

  /** The keyword list after `n` replies that all carry the keywords `incoming`. */
  function FeedKeywords(prev: seq<string>, incoming: seq<string>, n: nat): seq<string> {
    if n == 0 then prev else ApplyKeywords(FeedKeywords(prev, incoming, n - 1), Some(incoming))
  }

  /**
   * A keyword that is mentioned again keeps the place of its first insertion, so it can
   * be the one `slice(-10)` drops even though the latest reply repeated it: with ten
   * keywords known, a reply naming the oldest one and one new keyword evicts the oldest.
   */
  lemma RepeatedKeywordCanBeEvicted(prev: seq<string>, y: string)
    requires NoDup(prev) && |prev| == MaxKeywords && y !in prev
    ensures MergeKeywords(prev, [prev[0], y]) == prev[1..] + [y]
    ensures prev[0] !in MergeKeywords(prev, [prev[0], y])
  {
    var incoming := [prev[0], y];
    MergeAppendsUnseen(prev, incoming);
    assert incoming[..1] == [prev[0]];
    assert Unknown(prev, [prev[0]]) == [];
    assert Unknown(prev, incoming) == [y];
    assert Dedup([y]) == [y] by { assert [y][..0] == []; }
    assert (prev + [y])[1..] == prev[1..] + [y];
    assert forall i :: 1 <= i < |prev| ==> prev[i] != prev[0];
  }
}
