/**
 * The majority-vote smoother of backend/src/utils.py: a bounded FIFO window
 * of (class, confidence) pairs; the smoothed answer is the most frequent
 * class of the window, ties going to the class that entered the window
 * first, with the mean confidence of that class's own entries.
 */
module Utils {
  import opened Wrappers

  datatype Prediction = Prediction(classIndex: int, confidence: real)

  // ----- The window: a deque with a maximum length -----

  /** The last `n` elements of `t` (all of them when `t` is shorter). */
  function LastN<T>(t: seq<T>, n: nat): (r: seq<T>)
    ensures |r| == if |t| < n then |t| else n
    ensures forall k :: 0 <= k < |r| ==> r[k] == t[|t| - |r| + k]
  {
    if |t| <= n then t else t[|t| - n..]
  }

  /**
   * `deque(maxlen=w).append(p)` on a window `s` that respects the bound:
   * when the window is full its oldest entry is dropped.
   */
  function Push(s: seq<Prediction>, p: Prediction, w: nat): (r: seq<Prediction>)
    requires |s| <= w
    ensures |r| <= w
    ensures r == LastN(s + [p], w)
  {
    if |s| < w then s + [p]
    else if w == 0 then []
    else s[1..] + [p]
  }

  /** The window after appending `ps` one by one. */
  function PushAll(s: seq<Prediction>, ps: seq<Prediction>, w: nat): (r: seq<Prediction>)
    requires |s| <= w
    ensures |r| <= w
    decreases |ps|
  {
    if ps == [] then s else PushAll(Push(s, ps[0], w), ps[1..], w)
  }

  lemma LastNOfLastN<T>(t: seq<T>, u: seq<T>, n: nat)
    ensures LastN(LastN(t, n) + u, n) == LastN(t + u, n)
  {
    if |t| > n {
      var tu := t + u;
      var lu := t[|t| - n..] + u;
      var a := LastN(lu, n);
      var b := LastN(tu, n);
      assert |a| == |b| == n;
      forall k | 0 <= k < n ensures a[k] == b[k] {
        assert a[k] == lu[|u| + k];
        assert b[k] == tu[|t| + |u| - n + k];
      }
    }
  }

  lemma AppendSplit<T>(s: seq<T>, ps: seq<T>)
    requires ps != []
    ensures (s + [ps[0]]) + ps[1..] == s + ps
  {
  }

  /**
   * Strict eviction: however many predictions are added, the window holds
   * exactly the last `w` entries of everything added so far, in order.
   */
  lemma {:induction false} PushAllKeepsLastW(s: seq<Prediction>, ps: seq<Prediction>, w: nat)
    requires |s| <= w
    ensures PushAll(s, ps, w) == LastN(s + ps, w)
    decreases |ps|
  {
    if ps == [] {
      assert s + ps == s;
    } else {
      var t := s + [ps[0]];
      var s' := Push(s, ps[0], w);
      PushAllKeepsLastW(s', ps[1..], w);
      LastNOfLastN(t, ps[1..], w);
      AppendSplit(s, ps);
    }
  }

  // ----- Votes -----

  /** How many entries of the window vote for class `c`. */
  function Count(s: seq<Prediction>, c: int): (n: nat)
    ensures n <= |s|
  {
    if s == [] then 0
    else Count(s[..|s| - 1], c) + (if s[|s| - 1].classIndex == c then 1 else 0)
  }

  /** The confidences of the entries for class `c`, in window order. */
  function Confidences(s: seq<Prediction>, c: int): (r: seq<real>)
    ensures |r| == Count(s, c)
  {
    if s == [] then []
    else Confidences(s[..|s| - 1], c) + (if s[|s| - 1].classIndex == c then [s[|s| - 1].confidence] else [])
  }

  lemma CountStep(s: seq<Prediction>, i: nat, c: int)
    requires i < |s|
    ensures Count(s[..i + 1], c) == Count(s[..i], c) + (if s[i].classIndex == c then 1 else 0)
    ensures Confidences(s[..i + 1], c) == Confidences(s[..i], c) + (if s[i].classIndex == c then [s[i].confidence] else [])
  {
    assert s[..i + 1][..i] == s[..i];
  }

  /** Where class `c` first appears in the window (`|s|` when it does not). */
  function FirstIndex(s: seq<Prediction>, c: int): (i: nat)
    ensures i <= |s|
  {
    if s == [] then 0
    else if s[0].classIndex == c then 0
    else 1 + FirstIndex(s[1..], c)
  }

  /** No entry before `FirstIndex(s, c)` is for `c`, and the entry there is. */
  lemma {:induction false} FirstIndexSpec(s: seq<Prediction>, c: int)
    ensures forall k :: 0 <= k < FirstIndex(s, c) ==> s[k].classIndex != c
    ensures FirstIndex(s, c) < |s| ==> s[FirstIndex(s, c)].classIndex == c
  {
    if s != [] && s[0].classIndex != c {
      FirstIndexSpec(s[1..], c);
      assert forall k :: 1 <= k < |s| ==> s[k] == s[1..][k - 1];
    }
  }

  lemma {:induction false} CountAbsent(s: seq<Prediction>, c: int)
    requires forall k :: 0 <= k < |s| ==> s[k].classIndex != c
    ensures Count(s, c) == 0
  {
    if s != [] {
      CountAbsent(s[..|s| - 1], c);
    }
  }

  /** A class with a vote appears in the window. */
  lemma CountPositiveOccurs(s: seq<Prediction>, c: int)
    requires Count(s, c) > 0
    ensures FirstIndex(s, c) < |s|
  {
    if FirstIndex(s, c) == |s| {
      FirstIndexSpec(s, c);
      CountAbsent(s, c);
    }
  }

  /**
   * The first index, among the first `k` entries, whose class has the most
   * votes in the whole window.
   */
  function BestIndex(s: seq<Prediction>, k: nat): (b: nat)
    requires 0 < k <= |s|
    ensures b < k
    ensures forall j :: 0 <= j < k ==> Count(s, s[j].classIndex) <= Count(s, s[b].classIndex)
    ensures forall j :: 0 <= j < b ==> Count(s, s[j].classIndex) < Count(s, s[b].classIndex)
  {
    if k == 1 then 0
    else
      var b := BestIndex(s, k - 1);
      if Count(s, s[k - 1].classIndex) > Count(s, s[b].classIndex) then k - 1 else b
  }

  /** The reference majority class: the class at the first entry with the most votes. */
  function Winner(s: seq<Prediction>): int
    requires |s| > 0
  {
    s[BestIndex(s, |s|)].classIndex
  }

  /**
   * `c` wins the vote: it has a vote, no class has more, and every entry
   * before `c`'s first appearance belongs to a class with strictly fewer votes.
   */
  ghost predicate IsMajority(s: seq<Prediction>, c: int)
  {
    && Count(s, c) > 0
    && (forall d :: Count(s, d) <= Count(s, c))
    && (forall i :: 0 <= i < FirstIndex(s, c) ==> Count(s, s[i].classIndex) < Count(s, c))
  }

  lemma WinnerIsMajority(s: seq<Prediction>)
    requires |s| > 0
    ensures IsMajority(s, Winner(s))
  {
    var b := BestIndex(s, |s|);
    var c := s[b].classIndex;
    CountPositiveOccurs(s, c) by { CountAbsentContra(s, b); }
    FirstIndexSpec(s, c);
    assert FirstIndex(s, c) == b;
    forall d ensures Count(s, d) <= Count(s, c) {
      if Count(s, d) > 0 {
        CountPositiveOccurs(s, d);
        FirstIndexSpec(s, d);
      }
    }
  }

  /** The entry at `b` is a vote for its own class. */
  lemma CountAbsentContra(s: seq<Prediction>, b: nat)
    requires b < |s|
    ensures Count(s, s[b].classIndex) > 0
  {
    if Count(s, s[b].classIndex) == 0 {
      CountPositiveFromEntry(s, b);
    }
  }

  lemma {:induction false} CountPositiveFromEntry(s: seq<Prediction>, b: nat)
    requires b < |s|
    ensures Count(s, s[b].classIndex) > 0
  {
    if b < |s| - 1 {
      CountPositiveFromEntry(s[..|s| - 1], b);
    }
  }

  /** The vote has a single winner: the tie-break decides every tie. */
  lemma MajorityUnique(s: seq<Prediction>, c1: int, c2: int)
    requires IsMajority(s, c1) && IsMajority(s, c2)
    ensures c1 == c2
  {
    CountPositiveOccurs(s, c1);
    CountPositiveOccurs(s, c2);
    FirstIndexSpec(s, c1);
    FirstIndexSpec(s, c2);
  }

  // ----- Mean confidence -----

  /** Python's `sum` over a list of floats, taken over the reals. */
  function Sum(xs: seq<real>): real
  {
    if xs == [] then 0.0 else Sum(xs[..|xs| - 1]) + xs[|xs| - 1]
  }

  /** The mean confidence of the entries voting for `c`. */
  function MeanConfidence(s: seq<Prediction>, c: int): real
    requires Count(s, c) > 0
  {
    Sum(Confidences(s, c)) / (|Confidences(s, c)| as real)
  }

  lemma {:induction false} SumBounds(xs: seq<real>, lo: real, hi: real)
    requires forall k :: 0 <= k < |xs| ==> lo <= xs[k] <= hi
    ensures (|xs| as real) * lo <= Sum(xs) <= (|xs| as real) * hi
  {
    if xs != [] {
      SumBounds(xs[..|xs| - 1], lo, hi);
    }
  }

  lemma {:induction false} ConfidencesBounded(s: seq<Prediction>, c: int, lo: real, hi: real)
    requires forall i :: 0 <= i < |s| && s[i].classIndex == c ==> lo <= s[i].confidence <= hi
    ensures forall k :: 0 <= k < |Confidences(s, c)| ==> lo <= Confidences(s, c)[k] <= hi
  {
    if s != [] {
      ConfidencesBounded(s[..|s| - 1], c, lo, hi);
    }
  }

  /** The mean of values that all lie in [lo, hi] lies in [lo, hi]. */
  lemma MeanOfBounded(xs: seq<real>, lo: real, hi: real)
    requires |xs| > 0
    requires forall k :: 0 <= k < |xs| ==> lo <= xs[k] <= hi
    ensures lo <= Sum(xs) / (|xs| as real) <= hi
  {
    SumBounds(xs, lo, hi);
    DivideBounds(Sum(xs), |xs| as real, lo, hi);
  }

  /**
   * The mean is taken over class `c`'s entries only: if each of them has a
   * confidence in [lo, hi], so has the mean, whatever the other entries hold.
   */
  lemma MeanWithinBounds(s: seq<Prediction>, c: int, lo: real, hi: real)
    requires Count(s, c) > 0
    requires forall i :: 0 <= i < |s| && s[i].classIndex == c ==> lo <= s[i].confidence <= hi
    ensures lo <= MeanConfidence(s, c) <= hi
  {
    ConfidencesBounded(s, c, lo, hi);
    MeanOfBounded(Confidences(s, c), lo, hi);
  }

  lemma DivideBounds(a: real, n: real, lo: real, hi: real)
    requires n > 0.0 && n * lo <= a <= n * hi
    ensures lo <= a / n <= hi
  {
    var m := a / n;
    assert a == n * m;
  }

  /**
   * The smoothed prediction of a window: `(None, 0.0)` for an empty window,
   * otherwise the majority class with its mean confidence.
   */
  function SmoothedPrediction(s: seq<Prediction>): (r: (Option<int>, real))
    ensures r.0.None? <==> s == []
    ensures r.0.None? ==> r.1 == 0.0
    ensures r.0.Some? ==> IsMajority(s, r.0.value) && r.1 == MeanConfidence(s, r.0.value)
  {
    if s == [] then (None, 0.0)
    else
      WinnerIsMajority(s);
      (Some(Winner(s)), MeanConfidence(s, Winner(s)))
  }

  /**
   * Python's `max(class_counts.items(), key=count)[0]` over a dict whose keys
   * are in insertion order: the position of the first key with the largest count.
   */
  function MaxByCount(keys: seq<int>, counts: map<int, nat>): (b: nat)
    requires |keys| > 0
    requires forall k :: 0 <= k < |keys| ==> keys[k] in counts
    ensures b < |keys|
    ensures forall k :: 0 <= k < |keys| ==> counts[keys[k]] <= counts[keys[b]]
    ensures forall k :: 0 <= k < b ==> counts[keys[k]] < counts[keys[b]]
  {
    if |keys| == 1 then 0
    else
      var b := MaxByCount(keys[..|keys| - 1], counts);
      if counts[keys[|keys| - 1]] > counts[keys[b]] then |keys| - 1 else b
  }

  /** The conditions under which a vote table, counted over the whole window, is complete. */
  ghost predicate CompleteTable(s: seq<Prediction>, counts: map<int, nat>, order: seq<int>)
  {
    && (forall k :: 0 <= k < |order| ==> order[k] in counts)
    && (forall c :: c in counts ==> c in order)
    && (forall c :: c in counts ==> counts[c] == Count(s, c))
    && (forall c :: c !in counts ==> Count(s, c) == 0)
    && (forall j :: 0 <= j < |s| ==> s[j].classIndex in counts)
    && (forall k1, k2 :: 0 <= k1 < k2 < |order| ==> FirstIndex(s, order[k1]) < FirstIndex(s, order[k2]))
  }

  lemma TableMaxIsMax(s: seq<Prediction>, counts: map<int, nat>, order: seq<int>, bi: nat)
    requires bi < |order| && CompleteTable(s, counts, order)
    requires forall k :: 0 <= k < |order| ==> counts[order[k]] <= counts[order[bi]]
    ensures forall d :: Count(s, d) <= Count(s, order[bi])
  {
    forall d ensures Count(s, d) <= Count(s, order[bi]) {
      if d in counts {
        var k :| 0 <= k < |order| && order[k] == d;
      }
    }
  }

  lemma TableMaxIsFirst(s: seq<Prediction>, counts: map<int, nat>, order: seq<int>, bi: nat)
    requires bi < |order| && CompleteTable(s, counts, order)
    requires forall k :: 0 <= k < bi ==> counts[order[k]] < counts[order[bi]]
    ensures forall e :: 0 <= e < FirstIndex(s, order[bi]) ==> Count(s, s[e].classIndex) < Count(s, order[bi])
  {
    var best := order[bi];
    forall e | 0 <= e < FirstIndex(s, best)
      ensures Count(s, s[e].classIndex) < Count(s, best)
    {
      var d := s[e].classIndex;
      var k :| 0 <= k < |order| && order[k] == d;
      FirstIndexSpec(s, d);
      assert FirstIndex(s, d) <= e;
    }
  }

  /**
   * The loop invariant of the vote count, in three parts: the tables describe
   * the first `i` entries; `pos` is where each key sits in `order`.
   */
  ghost predicate TableKeys(s: seq<Prediction>, i: nat, counts: map<int, nat>, confs: map<int, seq<real>>,
                            order: seq<int>, pos: map<int, nat>)
    requires i <= |s|
  {
    && confs.Keys == counts.Keys && pos.Keys == counts.Keys
    && (forall k :: 0 <= k < |order| ==> order[k] in counts)
    && (forall c :: c in pos ==> pos[c] < |order| && order[pos[c]] == c)
    && (forall j :: 0 <= j < i ==> s[j].classIndex in counts)
  }

  ghost predicate TableValues(s: seq<Prediction>, i: nat, counts: map<int, nat>, confs: map<int, seq<real>>)
    requires i <= |s|
  {
    && (forall c :: c in counts ==> counts[c] == Count(s[..i], c) > 0)
    && (forall c :: c in counts ==> c in confs && confs[c] == Confidences(s[..i], c))
    && (forall c :: c !in counts ==> Count(s[..i], c) == 0)
  }

  ghost predicate TableOrder(s: seq<Prediction>, i: nat, order: seq<int>)
  {
    && (forall k :: 0 <= k < |order| ==> FirstIndex(s, order[k]) < i)
    && (forall k1, k2 :: 0 <= k1 < k2 < |order| ==> FirstIndex(s, order[k1]) < FirstIndex(s, order[k2]))
  }

  lemma TallyKeys(s: seq<Prediction>, i: nat, counts: map<int, nat>, confs: map<int, seq<real>>,
                  order: seq<int>, pos: map<int, nat>)
    requires i < |s| && TableKeys(s, i, counts, confs, order, pos)
    ensures var c := s[i].classIndex;
            var n := if c in counts then counts[c] else 0;
            var cs := if c in confs then confs[c] else [];
            TableKeys(s, i + 1, counts[c := n + 1], confs[c := cs + [s[i].confidence]],
                      if c in counts then order else order + [c],
                      if c in counts then pos else pos[c := |order|])
  {
    var c := s[i].classIndex;
    var n := if c in counts then counts[c] else 0;
    var counts' := counts[c := n + 1];
    forall j | 0 <= j < i + 1 ensures s[j].classIndex in counts' {
      if j < i { assert s[j].classIndex in counts; }
    }
  }

  lemma TallyValues(s: seq<Prediction>, i: nat, counts: map<int, nat>, confs: map<int, seq<real>>)
    requires i < |s| && TableValues(s, i, counts, confs) && confs.Keys == counts.Keys
    ensures var c := s[i].classIndex;
            var n := if c in counts then counts[c] else 0;
            var cs := if c in confs then confs[c] else [];
            TableValues(s, i + 1, counts[c := n + 1], confs[c := cs + [s[i].confidence]])
  {
    var c := s[i].classIndex;
    var n := if c in counts then counts[c] else 0;
    var cs := if c in confs then confs[c] else [];
    var counts', confs' := counts[c := n + 1], confs[c := cs + [s[i].confidence]];
    forall d | d in counts'
      ensures counts'[d] == Count(s[..i + 1], d) > 0
      ensures d in confs' && confs'[d] == Confidences(s[..i + 1], d)
    {
      CountStep(s, i, d);
    }
    forall d | d !in counts'
      ensures Count(s[..i + 1], d) == 0
    {
      CountStep(s, i, d);
    }
  }

  lemma TallyOrder(s: seq<Prediction>, i: nat, order: seq<int>, isNew: bool)
    requires i < |s| && TableOrder(s, i, order)
    requires isNew ==> forall j :: 0 <= j < i ==> s[j].classIndex != s[i].classIndex
    ensures TableOrder(s, i + 1, if isNew then order + [s[i].classIndex] else order)
  {
    if isNew {
      FirstIndexSpec(s, s[i].classIndex);
      assert FirstIndex(s, s[i].classIndex) == i;
    }
  }

  /** The dictionaries of the vote count, with the classes in order of first appearance. */
  datatype Tally = Tally(counts: map<int, nat>, confs: map<int, seq<real>>, order: seq<int>)

  /** One vote added to a tally: a class seen for the first time starts at zero. */
  function Step(t: Tally, p: Prediction): Tally
  {
    var c := p.classIndex;
    var n := if c in t.counts then t.counts[c] else 0;
    var cs := if c in t.confs then t.confs[c] else [];
    Tally(t.counts[c := n + 1], t.confs[c := cs + [p.confidence]],
          if c in t.counts then t.order else t.order + [c])
  }

  /** The tally of a window, vote by vote from the oldest entry. */
  function TallyOf(s: seq<Prediction>): Tally
  {
    if s == [] then Tally(map[], map[], []) else Step(TallyOf(s[..|s| - 1]), s[|s| - 1])
  }

  /** Where each counted class sits in the order of first appearance. */
  ghost function PosOf(s: seq<Prediction>): map<int, nat>
  {
    if s == [] then map[]
    else
      var c := s[|s| - 1].classIndex;
      var p := PosOf(s[..|s| - 1]);
      var t := TallyOf(s[..|s| - 1]);
      if c in t.counts then p else p[c := |t.order|]
  }

  /** The tally of every prefix satisfies the table invariants. */
  lemma {:induction false} TallyInvariant(s: seq<Prediction>, i: nat)
    requires i <= |s|
    ensures var t := TallyOf(s[..i]);
            && TableKeys(s, i, t.counts, t.confs, t.order, PosOf(s[..i]))
            && TableValues(s, i, t.counts, t.confs)
            && TableOrder(s, i, t.order)
  {
    if i > 0 {
      TallyInvariant(s, i - 1);
      var t := TallyOf(s[..i - 1]);
      assert s[..i][..i - 1] == s[..i - 1];
      TallyKeys(s, i - 1, t.counts, t.confs, t.order, PosOf(s[..i - 1]));
      TallyValues(s, i - 1, t.counts, t.confs);
      TallyOrder(s, i - 1, t.order, s[i - 1].classIndex !in t.counts);
    }
  }

  /** The tally of a whole window is complete. */
  lemma TallyComplete(s: seq<Prediction>)
    ensures var t := TallyOf(s);
            && CompleteTable(s, t.counts, t.order)
            && t.confs.Keys == t.counts.Keys
            && forall c :: c in t.counts ==> t.counts[c] > 0 && t.confs[c] == Confidences(s, c)
  {
    TallyInvariant(s, |s|);
    assert s[..|s|] == s;
    var t := TallyOf(s);
    var pos := PosOf(s);
    forall c | c in t.counts ensures c in t.order {
      assert t.order[pos[c]] == c;
    }
  }

  /**
   * The votes of a window counted into dictionaries: per class the number of
   * entries and their confidences, and the classes in order of first appearance.
   */
  method CountVotes(s: seq<Prediction>) returns (counts: map<int, nat>, confs: map<int, seq<real>>, order: seq<int>)
    ensures CompleteTable(s, counts, order)
    ensures confs.Keys == counts.Keys
    ensures forall c :: c in counts ==> counts[c] > 0 && confs[c] == Confidences(s, c)
  {
    counts, confs, order := map[], map[], [];
    var i := 0;
    while i < |s|
      invariant 0 <= i <= |s|
      invariant Tally(counts, confs, order) == TallyOf(s[..i])
      invariant confs.Keys == counts.Keys
    {
      ghost var before := Tally(counts, confs, order);
      var c := s[i].classIndex;
      if c !in counts {
        order := order + [c];
        counts := counts[c := 0];
        confs := confs[c := []];
      }
      counts := counts[c := counts[c] + 1];
      confs := confs[c := confs[c] + [s[i].confidence]];
      assert s[..i + 1][..i] == s[..i];
      assert Tally(counts, confs, order) == Step(before, s[i]);
      i := i + 1;
    }
    assert s[..i] == s;
    TallyComplete(s);
  }

  // ----- The smoother object -----

  class PredictionSmoother {
    const windowSize: nat
    var predictions: seq<Prediction>

    ghost predicate Valid()
      reads this
    {
      |predictions| <= windowSize
    }

    constructor (windowSize: nat)
      ensures Valid()
      ensures this.windowSize == windowSize && predictions == []
    {
      this.windowSize := windowSize;
      predictions := [];
    }

    method AddPrediction(classIndex: int, confidence: real)
      requires Valid()
      modifies this
      ensures Valid()
      ensures predictions == Push(old(predictions), Prediction(classIndex, confidence), windowSize)
    {
      var p := Prediction(classIndex, confidence);
      if |predictions| < windowSize {
        predictions := predictions + [p];
      } else if windowSize == 0 {
        predictions := [];
      } else {
        predictions := predictions[1..] + [p];
      }
    }

    /**
     * Counts the votes per class in dictionaries, remembering the order in
     * which classes first appeared (Python's dict order), then keeps the
     * first class with the largest count. Reads the window, changes nothing.
     */
    method GetSmoothedPrediction() returns (classIndex: Option<int>, confidence: real)
      ensures (classIndex, confidence) == SmoothedPrediction(predictions)
    {
      var s := predictions;
      if |s| == 0 {
        return None, 0.0;
      }
      var counts, confs, order := CountVotes(s);
      assert s[0].classIndex in order;
      var bi := MaxByCount(order, counts);
      var best := order[bi];
      TableMaxIsMax(s, counts, order, bi);
      TableMaxIsFirst(s, counts, order, bi);
      assert IsMajority(s, best);
      WinnerIsMajority(s);
      MajorityUnique(s, best, Winner(s));
      classIndex := Some(best);
      confidence := Sum(confs[best]) / (|confs[best]| as real);
    }

    method Reset()
      modifies this
      ensures Valid()
      ensures predictions == []
    {
      predictions := [];
    }
  }

  /**
   * The worked example of the smoother: with a window of 3, the votes
   * (1, 0.9), (1, 0.8), (2, 0.99) give class 1 with confidence 0.85, not
   * class 2 with its higher single confidence; after a reset the answer
   * is (None, 0.0).
   */
  method MajorityExample() returns (winner: Option<int>, mean: real, afterReset: Option<int>, resetConf: real)
    ensures winner == Some(1) && mean == 0.85
    ensures afterReset == None && resetConf == 0.0
  {
    var smoother := new PredictionSmoother(3);
    smoother.AddPrediction(1, 0.9);
    smoother.AddPrediction(1, 0.8);
    smoother.AddPrediction(2, 0.99);
    assert smoother.predictions == [Prediction(1, 0.9), Prediction(1, 0.8), Prediction(2, 0.99)];
    ExampleWindow(smoother.predictions);
    winner, mean := smoother.GetSmoothedPrediction();
    smoother.Reset();
    afterReset, resetConf := smoother.GetSmoothedPrediction();
  }

  /** The smoothed answer for the window of the worked example. */
  lemma ExampleWindow(s: seq<Prediction>)
    requires s == [Prediction(1, 0.9), Prediction(1, 0.8), Prediction(2, 0.99)]
    ensures SmoothedPrediction(s) == (Some(1), 0.85)
  {
    CountStep(s, 0, 1);
    CountStep(s, 1, 1);
    CountStep(s, 2, 1);
    CountStep(s, 0, 2);
    CountStep(s, 1, 2);
    CountStep(s, 2, 2);
    assert s[..0] == [] && s[..3] == s;
    assert Count(s, 1) == 2 && Count(s, 2) == 1;
    assert BestIndex(s, 2) == 0;
    assert Winner(s) == 1;
    assert Confidences(s, 1) == [0.9, 0.8];
    assert [0.9, 0.8][..1] == [0.9];
    assert Sum([0.9, 0.8]) == 1.7;
  }

  /** A window holding only votes for one class with one confidence answers that class and that confidence. */
  lemma SingleClassWindow(s: seq<Prediction>, c: int, conf: real)
    requires |s| > 0 && forall i :: 0 <= i < |s| ==> s[i] == Prediction(c, conf)
    ensures SmoothedPrediction(s) == (Some(c), conf)
  {
    var r := SmoothedPrediction(s);
    CountPositiveOccurs(s, r.0.value);
    MeanWithinBounds(s, r.0.value, conf, conf);
  }
}
