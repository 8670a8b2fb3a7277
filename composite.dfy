/** The composite generator: it offers each price to its sub-generators in
    list order and returns the first non-empty signal, without offering the
    price to the sub-generators after that one. */
module Composite {
  import opened SimpleMovingAverage
  import opened Rsi

  /** A sub-generator: a moving-average crossover or an RSI generator, with its state. */
  datatype Strategy = MovingAverage(ma: MaState) | RelativeStrength(rsi: RsiState)

  predicate ValidStrategy(s: Strategy)
  {
    match s
    case MovingAverage(m) => ValidMa(m)
    case RelativeStrength(r) => ValidRsi(r)
  }

  /** A sub-generator in a state its own invariant allows. */
  type Sub = s: Strategy | ValidStrategy(s) witness MovingAverage(MaState(1, 1, []))

  /** Offering one price to one sub-generator: its new state and its signal. */
  function Step(s: Sub, price: real): (r: (Sub, string))
    ensures r.0.MovingAverage? == s.MovingAverage?
  {
    match s
    case MovingAverage(m) => (MovingAverage(MaNext(m, price)), MaSignal(m, price))
    case RelativeStrength(q) => (RelativeStrength(RsiNext(q, price)), RsiOutput(q, price))
  }

  /** The position of the first sub-generator that fires on `price` under
      `step`, or the length of the list when none does. */
  function FirstFire<S>(step: (S, real) -> (S, string), ss: seq<S>, price: real): (k: nat)
    ensures k <= |ss|
    ensures forall i | 0 <= i < k :: step(ss[i], price).1 == ""
    ensures k < |ss| ==> step(ss[k], price).1 != ""
    decreases |ss|
  {
    if ss == [] then 0
    else if step(ss[0], price).1 != "" then 0
    else 1 + FirstFire(step, ss[1..], price)
  }

  /** The first firing position is the one where all before it are silent and it fires. */
  lemma FirstFireAt<S>(step: (S, real) -> (S, string), ss: seq<S>, price: real, k: nat)
    requires k <= |ss|
    requires forall i | 0 <= i < k :: step(ss[i], price).1 == ""
    requires k < |ss| ==> step(ss[k], price).1 != ""
    ensures FirstFire(step, ss, price) == k
  {
  }

  /** The composite's step, as the short-circuit search it is: step the head;
      stop with its signal if it fired, otherwise go on with the rest. */
  function CompositeStep<S>(step: (S, real) -> (S, string), ss: seq<S>, price: real): (r: (seq<S>, string))
    ensures |r.0| == |ss|
    decreases |ss|
  {
    if ss == [] then ([], "")
    else
      var (head, signal) := step(ss[0], price);
      if signal != "" then ([head] + ss[1..], signal)
      else
        var (rest, later) := CompositeStep(step, ss[1..], price);
        ([head] + rest, later)
  }

  /** The sub-generators before position `k`, stepped, followed by the untouched rest. */
  function SteppedUpTo<S>(step: (S, real) -> (S, string), ss: seq<S>, k: nat, price: real): (r: seq<S>)
    requires k <= |ss|
    ensures |r| == |ss|
  {
    seq(k, j requires 0 <= j < k => step(ss[j], price).0) + ss[k..]
  }

  /** Stepping one more sub-generator extends the stepped prefix by one. */
  lemma SteppedUpToNext<S>(step: (S, real) -> (S, string), ss: seq<S>, k: nat, price: real)
    requires k < |ss|
    ensures SteppedUpTo(step, ss, k + 1, price) == SteppedUpTo(step, ss, k, price)[k := step(ss[k], price).0]
  {
    var a, b := SteppedUpTo(step, ss, k + 1, price), SteppedUpTo(step, ss, k, price)[k := step(ss[k], price).0];
    forall j | 0 <= j < |ss|
      ensures a[j] == b[j]
    {
    }
  }

  /** The composite returns the signal of the first sub-generator that fires,
      or "" when none does; every sub-generator up to and including that one
      is stepped exactly once, and the ones after it keep their state. */
  lemma {:induction false} CompositeFirst<S>(step: (S, real) -> (S, string), ss: seq<S>, price: real)
    ensures var k := FirstFire(step, ss, price);
            && CompositeStep(step, ss, price).1 == (if k < |ss| then step(ss[k], price).1 else "")
            && CompositeStep(step, ss, price).0 == SteppedUpTo(step, ss, if k < |ss| then k + 1 else |ss|, price)
    decreases |ss|
  {
    if ss != [] {
      var k := FirstFire(step, ss, price);
      if step(ss[0], price).1 == "" {
        CompositeFirst(step, ss[1..], price);
        var m := if k < |ss| then k + 1 else |ss|;
        var tail := SteppedUpTo(step, ss[1..], m - 1, price);
        assert ss[1..][m - 1..] == ss[m..];
        assert [step(ss[0], price).0] + tail == SteppedUpTo(step, ss, m, price);
      } else {
        assert [step(ss[0], price).0] + ss[1..] == SteppedUpTo(step, ss, 1, price);
      }
    }
  }

  /** The composite stops at a sub-generator that fires after silent ones. */
  lemma CompositeStopsAt<S>(step: (S, real) -> (S, string), ss: seq<S>, price: real, k: nat)
    requires k < |ss| && step(ss[k], price).1 != ""
    requires forall i | 0 <= i < k :: step(ss[i], price).1 == ""
    ensures CompositeStep(step, ss, price).0 == SteppedUpTo(step, ss, k + 1, price)
    ensures CompositeStep(step, ss, price).1 == step(ss[k], price).1
  {
    FirstFireAt(step, ss, price, k);
    CompositeFirst(step, ss, price);
  }

  /** The composite runs through when every sub-generator is silent. */
  lemma CompositeRunsThrough<S>(step: (S, real) -> (S, string), ss: seq<S>, price: real)
    requires forall i | 0 <= i < |ss| :: step(ss[i], price).1 == ""
    ensures CompositeStep(step, ss, price).0 == SteppedUpTo(step, ss, |ss|, price)
    ensures CompositeStep(step, ss, price).1 == ""
  {
    FirstFireAt(step, ss, price, |ss|);
    CompositeFirst(step, ss, price);
  }

  /** The composite is silent exactly when every sub-generator is; in
      particular an empty list never signals. */
  lemma CompositeSilent<S>(step: (S, real) -> (S, string), ss: seq<S>, price: real)
    ensures CompositeStep(step, ss, price).1 == "" <==> forall i | 0 <= i < |ss| :: step(ss[i], price).1 == ""
  {
    CompositeFirst(step, ss, price);
  }

  /** An RSI generator registered before a crossover generator wins the tick
      on which it sells, whatever the crossover would have signalled, and the
      crossover generator is not offered the price. */
  lemma FirstRegisteredWins(rsi: Sub, ma: Sub, price: real)
    requires rsi.RelativeStrength? && ma.MovingAverage?
    requires RsiOutput(rsi.rsi, price) == Sell
    ensures var ss: seq<Sub> := [rsi, ma];
            CompositeStep(Step, ss, price) == ([Step(rsi, price).0, ma], Sell)
  {
    var ss: seq<Sub> := [rsi, ma];
    var (head, signal) := Step(rsi, price);
    assert signal == Sell;
    assert ss[0] == rsi && ss[1..] == [ma];
    assert [head] + ss[1..] == [head, ma];
  }

  /** The composite over sub-generators of any kind `S`, each offered a price
      through `step`; with `Step` it composes the generators of this library. */
  class CompositeStrategy<S> {
    const step: (S, real) -> (S, string)
    var strategies: seq<S>

    constructor (step': (S, real) -> (S, string), strats: seq<S>)
      ensures step == step' && strategies == strats
    {
      step := step';
      strategies := strats;
    }

    /** Offers `price` to the sub-generators in order and returns the first
        non-empty signal, or "" when none fires. */
    method OnNewPrice(price: real) returns (signal: string)
      modifies this
      ensures strategies == CompositeStep(step, old(strategies), price).0
      ensures signal == CompositeStep(step, old(strategies), price).1
    {
      var subs := strategies;
      ghost var start := subs;
      var i := 0;
      while i < |subs|
        invariant |subs| == |start| && i <= |start|
        invariant subs == SteppedUpTo(step, start, i, price)
        invariant forall j | 0 <= j < i :: step(start[j], price).1 == ""
      {
        assert subs[i] == start[i];
        var (next, s) := step(subs[i], price);
        SteppedUpToNext(step, start, i, price);
        subs := subs[i := next];
        if s != "" {
          CompositeStopsAt(step, start, price, i);
          strategies := subs;
          return s;
        }
        i := i + 1;
      }
      CompositeRunsThrough(step, start, price);
      strategies := subs;
      return "";
    }
  }
}
