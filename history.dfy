/**
 * The rolling price history shared by both versions of the index page:
 * each completed fetch appends one sample and keeps only the last ten
 * (`[...prev, sample].slice(-10)`).
 */
module History {

  /** How many samples the page keeps. */
  const Capacity: nat := 10

  /** One history sample: the local time-of-day string and the au9999 price in hundredths. */
  datatype PricePoint = PricePoint(time: string, price: int)

  /**
   * `s.slice(-n)` for a positive `n`: the last `n` elements of `s`, or all of
   * `s` when it is shorter. (`slice(-0)` would return all of `s`.)
   */
  function LastN<T>(s: seq<T>, n: nat): (r: seq<T>)
    requires n > 0
    ensures |r| == if |s| < n then |s| else n
    ensures |s| < n ==> r == s
    ensures n <= |s| ==> r == s[|s| - n..]
  {
    s[if |s| < n then 0 else |s| - n..]
  }

  /** How many of the oldest samples one more sample pushes out: none until the history is full. */
  function Evicted<T>(prev: seq<T>): (d: nat)
  {
    if |prev| < Capacity then 0 else |prev| + 1 - Capacity
  }

  /**
   * The history updater run on every completed fetch: the retained samples
   * are a suffix of the old history, in their old order, followed by the new
   * sample, and at most `Capacity` are kept.
   */
  function Push<T>(prev: seq<T>, sample: T): (next: seq<T>)
    ensures |next| == if |prev| < Capacity then |prev| + 1 else Capacity
    ensures next == prev[Evicted(prev)..] + [sample]
  {
    LastN(prev + [sample], Capacity)
  }

  /**
   * The new sample is always last; below capacity nothing is evicted and the
   * old history is a prefix of the new; at capacity exactly the oldest goes.
   */
  lemma PushEviction<T>(prev: seq<T>, sample: T)
    ensures Push(prev, sample)[|Push(prev, sample)| - 1] == sample
    ensures |prev| < Capacity ==> Push(prev, sample) == prev + [sample]
    ensures |prev| == Capacity ==> Push(prev, sample) == prev[1..] + [sample]
    ensures |Push(prev, sample)| <= Capacity
  {
  }

  /** `s.map(f)`: the projection of every sample, in order. */
  function Map<T, U>(f: T -> U, s: seq<T>): (r: seq<U>)
    ensures |r| == |s|
    ensures forall k :: 0 <= k < |s| ==> r[k] == f(s[k])
  {
    if s == [] then [] else [f(s[0])] + Map(f, s[1..])
  }

  /** The updater commutes with any per-sample projection: project-then-push is push-then-project. */
  lemma MapPush<T, U>(f: T -> U, prev: seq<T>, sample: T)
    ensures Map(f, Push(prev, sample)) == Push(Map(f, prev), f(sample))
  {
    var next := Push(prev, sample);
    var projected := Map(f, prev);
    var pushed := Push(projected, f(sample));
    var d := Evicted(prev);
    assert next == prev[d..] + [sample];
    assert pushed == projected[d..] + [f(sample)];
    forall k | 0 <= k < |next|
      ensures Map(f, next)[k] == pushed[k]
    {
      if k < |next| - 1 {
        assert next[k] == prev[d + k];
        assert pushed[k] == projected[d + k];
      }
    }
  }

  /** The chart gate of both pages: a chart needs more than one point. */
  predicate ChartShown<T>(history: seq<T>)
  {
    |history| > 1
  }

  /** The chart appears from the second completed fetch on, and never disappears again. */
  lemma ChartShownAfterPush<T>(prev: seq<T>, sample: T)
    ensures ChartShown(Push(prev, sample)) <==> |prev| >= 1
  {
  }

  /** Appending several samples one completed fetch at a time. */
  function AppendAll<T>(history: seq<T>, samples: seq<T>): (r: seq<T>)
    decreases |samples|
  {
    if samples == [] then history else AppendAll(Push(history, samples[0]), samples[1..])
  }

  /** One more completed fetch after a run of them is one more push. */
  lemma {:induction false} AppendAllSnoc<T>(history: seq<T>, samples: seq<T>, sample: T)
    ensures AppendAll(history, samples + [sample]) == Push(AppendAll(history, samples), sample)
    decreases |samples|
  {
    if samples == [] {
      assert [] + [sample] == [sample];
      assert AppendAll(history, [sample]) == AppendAll(Push(history, sample), []);
    } else {
      assert (samples + [sample])[1..] == samples[1..] + [sample];
      assert AppendAll(history, samples + [sample]) == AppendAll(Push(history, samples[0]), samples[1..] + [sample]);
      AppendAllSnoc(Push(history, samples[0]), samples[1..], sample);
    }
  }

  /** Taking the last `n` twice, with more elements appended in between, is taking them once. */
  lemma LastNOfLastN<T>(a: seq<T>, b: seq<T>, n: nat)
    requires n > 0
    ensures LastN(LastN(a, n) + b, n) == LastN(a + b, n)
  {
    var la := LastN(a, n);
    assert la + b == (a + b)[|a| - |la|..];
  }

  /**
   * Any run of completed fetches leaves exactly the last `Capacity` samples of
   * everything seen, in the order they were appended.
   */
  lemma {:induction false} AppendAllIsLastN<T>(history: seq<T>, samples: seq<T>)
    requires |history| <= Capacity
    ensures AppendAll(history, samples) == LastN(history + samples, Capacity)
    decreases |samples|
  {
    if samples == [] {
      assert history + samples == history;
    } else {
      var x, rest := samples[0], samples[1..];
      var next := Push(history, x);
      AppendAllIsLastN(next, rest);
      LastNOfLastN(history + [x], rest, Capacity);
      SnocThenRest(history, samples);
    }
  }

  /**
   * Bookkeeping: the head sample pushed first, then the rest. Kept apart from
   * `AppendAllIsLastN` so that the identity is proved without that proof's context.
   */
  lemma SnocThenRest<T>(history: seq<T>, samples: seq<T>)
    requires samples != []
    ensures history + [samples[0]] + samples[1..] == history + samples
  {
  }

  /** From an empty history: size is min(N, Capacity) and the contents are the last samples. */
  lemma AppendAllFromEmpty<T>(samples: seq<T>)
    ensures |AppendAll([], samples)| == if |samples| < Capacity then |samples| else Capacity
    ensures AppendAll([], samples) == samples[|samples| - |AppendAll([], samples)|..]
  {
    AppendAllIsLastN([], samples);
    assert [] + samples == samples;
  }

  /** Adjacent samples are related by `le` (for instance, non-decreasing timestamps). */
  predicate InOrder<T>(s: seq<T>, le: (T, T) -> bool)
  {
    forall i :: 0 < i < |s| ==> le(s[i - 1], s[i])
  }

  /**
   * Eviction keeps the order: when the caller appends samples in order, the
   * history stays in order. The page itself does not enforce the premise.
   */
  lemma PushKeepsOrder<T>(prev: seq<T>, sample: T, le: (T, T) -> bool)
    requires InOrder(prev, le)
    requires prev != [] ==> le(prev[|prev| - 1], sample)
    ensures InOrder(Push(prev, sample), le)
  {
    var next := Push(prev, sample);
    var d := Evicted(prev);
    assert next == prev[d..] + [sample];
    forall i | 0 < i < |next|
      ensures le(next[i - 1], next[i])
    {
      if i < |next| - 1 {
        assert next[i - 1] == prev[d + i - 1] && next[i] == prev[d + i];
      }
    }
  }
}
