/** The bounded window both charts keep: push at the back, and when the length
    exceeds 60 * 30 shift one element off the front
    (app/components/charts/ChannelChart.tsx:163-168,
    app/components/charts/Temperature.tsx:102-110). */
module ChartWindow {

  /** Thirty minutes at one point per second. */
  const Capacity: nat := 60 * 30

  /** `xs.push(x)`, then `xs.shift()` if the length exceeds `cap`. */
  function BoundedPush<T>(xs: seq<T>, x: T, cap: nat): (r: seq<T>)
    ensures |r| == if |xs| + 1 > cap then |xs| else |xs| + 1
    ensures |r| > 0 ==> r[|r| - 1] == x
  {
    var pushed := xs + [x];
    if |pushed| > cap then pushed[1..] else pushed
  }

  /** Reference definition: the most recent `n` elements of a history. */
  function Latest<T>(history: seq<T>, n: nat): (r: seq<T>)
    ensures |r| == if |history| <= n then |history| else n
  {
    if |history| <= n then history else history[|history| - n..]
  }

  /** One push keeps the bound, puts `x` last and drops at most the oldest
      element, keeping the order of the rest. */
  lemma BoundedPushShape<T>(xs: seq<T>, x: T, cap: nat)
    requires 1 <= cap && |xs| <= cap
    ensures var r := BoundedPush(xs, x, cap);
      && |r| <= cap
      && r[|r| - 1] == x
      && (|xs| < cap ==> r == xs + [x])
      && (|xs| == cap ==> r == xs[1..] + [x])
  {
    var r := BoundedPush(xs, x, cap);
    if |xs| == cap {
      assert r == (xs + [x])[1..];
      assert (xs + [x])[1..] == xs[1..] + [x];
    }
  }

  /** A push onto the window of a history is the window of the longer history. */
  lemma BoundedPushLatest<T>(history: seq<T>, x: T, cap: nat)
    requires 1 <= cap
    ensures BoundedPush(Latest(history, cap), x, cap) == Latest(history + [x], cap)
  {
    var h := history + [x];
    if |history| > cap {
      var w := history[|history| - cap..];
      assert w + [x] == h[|h| - cap - 1..];
      assert (w + [x])[1..] == h[|h| - cap..];
    } else if |history| == cap {
      assert (history + [x])[1..] == h[|h| - cap..];
    }
  }

  /** Pushing a run of samples one at a time. */
  function PushAll<T>(xs: seq<T>, samples: seq<T>, cap: nat): seq<T>
    decreases |samples|
  {
    if samples == [] then xs else PushAll(BoundedPush(xs, samples[0], cap), samples[1..], cap)
  }

  /** Whatever arrives, the window holds exactly the latest `cap` samples of
      the whole history, oldest first. */
  lemma {:induction false} WindowIsLatest<T>(history: seq<T>, samples: seq<T>, cap: nat)
    requires 1 <= cap
    ensures PushAll(Latest(history, cap), samples, cap) == Latest(history + samples, cap)
    decreases |samples|
  {
    if samples != [] {
      BoundedPushLatest(history, samples[0], cap);
      WindowIsLatest(history + [samples[0]], samples[1..], cap);
      assert history + [samples[0]] + samples[1..] == history + samples;
    }
  }
}
