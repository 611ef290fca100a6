/** The wind sensor: encoder edges counted over a window and converted to revolutions per minute. */
module Wind {

  /** Encoder edges per revolution of the propeller. */
  const PulsesPerRevolution := 20
  /** The shortest time between two evaluations of the count, in milliseconds. */
  const RpmWindow := 1000

  /** Revolutions per minute for the edges counted since the last evaluation: the
      count is read as revolutions (over 20) and scaled by 60, which is 3 per edge. */
  function RpmOf(pulses: nat): (r: nat)
    ensures r == 3 * pulses
  {
    pulses * 60 / PulsesPerRevolution
  }

  /** The counter shared with the edge interrupt: edges since the last evaluation,
      the time of that evaluation and the rate it produced. */
  datatype WindState = WindState(pulses: nat, lastRead: int, rpm: nat)

  /** One encoder edge: the count grows by one and nothing else changes. */
  function CountEdge(w: WindState): (r: WindState)
    ensures r.pulses == w.pulses + 1
    ensures r.lastRead == w.lastRead && r.rpm == w.rpm
  {
    w.(pulses := w.pulses + 1)
  }

  /** An evaluation at `now`: before the window has elapsed nothing changes and the held
      rate is kept; afterwards the count becomes the new rate and a new window starts. */
  function Evaluate(w: WindState, now: int): (r: WindState)
    ensures now - w.lastRead < RpmWindow ==> r == w
    ensures now - w.lastRead >= RpmWindow ==>
      r.rpm == 3 * w.pulses && r.pulses == 0 && r.lastRead == now
  {
    if now - w.lastRead >= RpmWindow then WindState(0, now, RpmOf(w.pulses)) else w
  }

  /** What happens to the counter: an interrupt edge or an evaluation by the main loop. */
  datatype WindEvent = Edge | Evaluation(now: int)

  /** The counter after the events in turn. The window start never moves back, and the
      count never exceeds the edges it held plus those among the events. */
  function Run(w: WindState, events: seq<WindEvent>): (r: WindState)
    ensures r.lastRead >= w.lastRead
    ensures r.pulses <= w.pulses + EdgeCount(events)
    decreases |events|
  {
    if events == [] then w
    else
      var next := match events[0]
        case Edge => CountEdge(w)
        case Evaluation(now) => Evaluate(w, now);
      Run(next, events[1..])
  }

  function Edges(k: nat): (es: seq<WindEvent>)
    ensures |es| == k && forall i :: 0 <= i < k ==> es[i] == Edge
  {
    if k == 0 then [] else [Edge] + Edges(k - 1)
  }

  /** The number of edges among the events. */
  function EdgeCount(events: seq<WindEvent>): nat
    decreases |events|
  {
    if events == [] then 0 else (if events[0] == Edge then 1 else 0) + EdgeCount(events[1..])
  }

  /** Evaluations made before the window ends lose no edge: the count only grows, by the
      number of edges, and the held rate and window start are kept. */
  lemma {:induction false} EarlyEvaluationsKeepCount(w: WindState, events: seq<WindEvent>)
    requires forall i :: 0 <= i < |events| && events[i].Evaluation? ==>
      events[i].now - w.lastRead < RpmWindow
    ensures Run(w, events) == w.(pulses := w.pulses + EdgeCount(events))
    decreases |events|
  {
    if events != [] {
      var next := match events[0]
        case Edge => CountEdge(w)
        case Evaluation(now) => Evaluate(w, now);
      assert next.lastRead == w.lastRead;
      EarlyEvaluationsKeepCount(next, events[1..]);
    }
  }

  /** Edges followed by an evaluation after the window: every edge since the last
      evaluation goes into the rate (3 RPM each) and the count starts again from zero. */
  lemma {:induction false} EdgesThenEvaluation(w: WindState, k: nat, now: int)
    requires now - w.lastRead >= RpmWindow
    ensures Run(w, Edges(k) + [Evaluation(now)]) == WindState(0, now, 3 * (w.pulses + k))
    decreases k
  {
    if k == 0 {
      assert Edges(k) + [Evaluation(now)] == [Evaluation(now)];
    } else {
      var es := Edges(k) + [Evaluation(now)];
      assert es[0] == Edge;
      assert es[1..] == Edges(k - 1) + [Evaluation(now)];
      EdgesThenEvaluation(CountEdge(w), k - 1, now);
    }
  }

  /** 40 edges, two revolutions, in one window read as 120 RPM. */
  lemma FortyPulsesScenario(lastRead: int, now: int)
    requires now - lastRead >= RpmWindow
    ensures Run(WindState(0, lastRead, 0), Edges(40) + [Evaluation(now)]).rpm == 120
  {
    EdgesThenEvaluation(WindState(0, lastRead, 0), 40, now);
  }
}
