/**
 The probe loop, one pass at a time. Each pass connects with the configured
 timeout as deadline, prints one status line and then sleeps for the same
 timeout, whatever the attempt took. Nothing is carried from one pass to the
 next except the configuration fixed at start-up; the connect itself and
 the clock are inputs here, as the `Attempt` of each pass.
 */
module Session {
  import opened Cli
  import opened Report

  /** One pass of the loop: the connect deadline in seconds, the line
      printed, and the seconds slept afterwards. */
  datatype Pass = Pass(deadline: nat, line: Line, pause: nat)

  /** The pass whose connect attempt ended as `attempt`. */
  function Iteration(config: Config, attempt: Attempt): (p: Pass)
    ensures p.deadline == config.timeout && p.pause == config.timeout
    ensures attempt.NotConnected? ==> ColouredWith(p.line, RED)
    ensures attempt.Connected? ==> ColouredWith(p.line, LatencyColour(attempt.elapsedMs))
  {
    Pass(config.timeout, StatusLine(config.target, config.port, attempt), config.timeout)
  }

  /** The passes the loop makes for a run of attempts, in order. */
  function Passes(config: Config, attempts: seq<Attempt>): (ps: seq<Pass>)
    ensures |ps| == |attempts|
    ensures forall i :: 0 <= i < |attempts| ==>
              ps[i].line == StatusLine(config.target, config.port, attempts[i])
    ensures forall i :: 0 <= i < |attempts| ==>
              ps[i].deadline == config.timeout && ps[i].pause == config.timeout
    decreases |attempts|
  {
    if attempts == [] then []
    else [Iteration(config, attempts[0])] + Passes(config, attempts[1..])
  }

  /** Passes depend on their own attempt only: a run is the passes of its
      first part followed by the passes of the rest. */
  lemma {:induction false} PassesSplit(config: Config, a: seq<Attempt>, b: seq<Attempt>)
    ensures Passes(config, a + b) == Passes(config, a) + Passes(config, b)
    decreases |a|
  {
    if a == [] {
      assert a + b == b;
    } else {
      assert (a + b)[1..] == a[1..] + b;
      PassesSplit(config, a[1..], b);
    }
  }
}
