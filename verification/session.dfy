/**
 The measurement loop as a whole. Each iteration evaluates its frame into a
 `Sighting` (`Scanner.Classify`) and then takes a `Transition`; `Run` feeds
 these evaluated frames, with their clock readings and key codes, to the
 state machine until one of them saves or stops.

 The lemmas describe whole runs: the loop ends at the first non-continuing
 iteration (so a run saves at most once), a hand held in position captures
 at the first frame more than one second after the countdown started, and
 an interrupted countdown starts again from zero.
 */
module Session {
  import opened Units
  import opened Countdown
  import Scanner

  /** One evaluated frame, the clock reading (seconds) and the key code. */
  datatype Observation = Observation(sighting: Sighting, now: real, key: int)

  /** What the loop sees of a raw tick. Transitions on it are the loop's steps. */
  function Observe(t: Scanner.Tick, root: real -> real): (ob: Observation)
    requires Scanner.WellFormed(t.frame)
    requires IsSqrt(root)
    ensures ob.sighting.InBox? <==> Scanner.Centred(t.frame)
    ensures ob.now == t.now && ob.key == t.key
    ensures PlausibleSighting(ob.sighting)
    ensures forall s :: Transition(s, ob.sighting, ob.now, ob.key) == Scanner.Step(s, t, root)
  {
    Observation(Scanner.Classify(t.frame, root), t.now, t.key)
  }

  predicate AllPlausible(obs: seq<Observation>) {
    forall i :: 0 <= i < |obs| ==> PlausibleSighting(obs[i].sighting)
  }

  /** Still looping in `state`, or ended by `outcome` at iteration number `at`. */
  datatype RunResult = Running(state: State) | Ended(outcome: Outcome, at: nat)

  /** The loop over `obs`, from state `s`. */
  function Run(s: State, obs: seq<Observation>): (r: RunResult)
    requires AllPlausible(obs)
    ensures r.Ended? ==> r.at < |obs| && !r.outcome.Continue?
    ensures r.Ended? && r.outcome.Save? ==> obs[r.at].sighting.InBox?
    decreases |obs|
  {
    if |obs| == 0 then Running(s)
    else
      match Transition(s, obs[0].sighting, obs[0].now, obs[0].key)
      case Continue(next) => Later(Run(next, obs[1..]), 1)
      case o => Ended(o, 0)
  }

  /** A result of a run over a suffix, seen from `n` iterations earlier. */
  function Later(r: RunResult, n: nat): (r': RunResult)
    ensures r'.Running? <==> r.Running?
    ensures r.Running? ==> r' == r
    ensures r.Ended? ==> r'.outcome == r.outcome && r'.at == r.at + n
  {
    if r.Ended? then Ended(r.outcome, r.at + n) else r
  }

  /** Continues a run over more observations, if it has not ended. */
  function Then(r: RunResult, b: seq<Observation>, offset: nat): RunResult
    requires AllPlausible(b)
  {
    if r.Running? then Later(Run(r.state, b), offset) else r
  }

  lemma AllPlausibleAppend(a: seq<Observation>, b: seq<Observation>)
    requires AllPlausible(a) && AllPlausible(b)
    ensures AllPlausible(a + b)
  {
    forall i | 0 <= i < |a + b|
      ensures PlausibleSighting((a + b)[i].sighting)
    {
      if i < |a| {
        assert (a + b)[i] == a[i];
      } else {
        assert (a + b)[i] == b[i - |a|];
      }
    }
  }

  /** A run over `a + b` is the run over `a` continued over `b`, unless `a` already ended it. */
  lemma {:induction false} RunAppend(s: State, a: seq<Observation>, b: seq<Observation>)
    requires AllPlausible(a) && AllPlausible(b)
    ensures AllPlausible(a + b)
    ensures Run(s, a + b) == Then(Run(s, a), b, |a|)
    decreases |a|
  {
    AllPlausibleAppend(a, b);
    if |a| == 0 {
      assert a + b == b;
    } else {
      assert (a + b)[0] == a[0];
      assert (a + b)[1..] == a[1..] + b;
      match Transition(s, a[0].sighting, a[0].now, a[0].key)
      case Continue(next) =>
        RunAppend(next, a[1..], b);
      case _ =>
    }
  }

  /** Observations after the loop has ended are never consumed: nothing happens after a save or a stop. */
  lemma EndedIgnoresLaterObservations(s: State, a: seq<Observation>, b: seq<Observation>)
    requires AllPlausible(a) && AllPlausible(b)
    requires Run(s, a).Ended?
    ensures AllPlausible(a + b)
    ensures Run(s, a + b) == Run(s, a)
  {
    RunAppend(s, a, b);
  }

  /**
   A run that ends at iteration `i` was still running after every shorter
   prefix (in particular it had not saved), and iteration `i` itself produced
   the outcome. So a run saves at most once.
   */
  lemma EndsAtFirstNonContinue(s: State, obs: seq<Observation>, j: nat)
    requires AllPlausible(obs)
    requires Run(s, obs).Ended?
    requires j <= Run(s, obs).at
    ensures AllPlausible(obs[..j])
    ensures Run(s, obs[..j]).Running?
    ensures j == Run(s, obs).at ==>
              var p := Run(s, obs[..j]).state;
              Transition(p, obs[j].sighting, obs[j].now, obs[j].key) == Run(s, obs).outcome
  {
    var r := Run(s, obs);
    assert obs == obs[..j] + obs[j..];
    assert AllPlausible(obs[..j]) by {
      forall k | 0 <= k < j
        ensures PlausibleSighting(obs[..j][k].sighting)
      {
        assert obs[..j][k] == obs[k];
      }
    }
    assert AllPlausible(obs[j..]) by {
      forall k | 0 <= k < |obs| - j
        ensures PlausibleSighting(obs[j..][k].sighting)
      {
        assert obs[j..][k] == obs[j + k];
      }
    }
    RunAppend(s, obs[..j], obs[j..]);
    if j == r.at {
      var rest := obs[j..];
      assert rest[0] == obs[j];
    }
  }

  // ---------------------------------------------------------------------
  // Holding the hand in position
  // ---------------------------------------------------------------------

  /** A centred hand that passes the proximity gate, and no key pressed that matters. */
  predicate Qualifies(ob: Observation) {
    ob.sighting.InBox? && ob.sighting.close && Plausible(ob.sighting.m) && Neutral(ob.key)
  }

  /** The automatic capture on a qualifying observation, with its measurement. */
  function AutoSaveOn(ob: Observation): (o: Outcome)
    requires Qualifies(ob)
    ensures o.Save? && o.how == Auto && o.size == ob.sighting.m
    ensures 1 <= o.category
  {
    SaveWith(Auto, ob.sighting.m)
  }

  /** Index of the first observation more than one second after `start` (`|obs|` if none). */
  function FirstExpired(obs: seq<Observation>, start: real): (i: nat)
    ensures i <= |obs|
    ensures forall j :: 0 <= j < i ==> obs[j].now - start <= 1.0
    ensures i < |obs| ==> obs[i].now - start > 1.0
    decreases |obs|
  {
    if |obs| == 0 || obs[0].now - start > 1.0 then 0
    else 1 + FirstExpired(obs[1..], start)
  }

  /**
   With a countdown running since `start` and the hand held in position,
   the loop captures automatically at the first frame more than one second
   after `start`, and not before; if there is no such frame it is still
   counting from `start`.
   */
  lemma {:induction false} HeldWhileCounting(start: real, obs: seq<Observation>)
    requires forall i :: 0 <= i < |obs| ==> Qualifies(obs[i])
    ensures AllPlausible(obs)
    ensures var i := FirstExpired(obs, start);
            Run(State(true, start), obs)
            == if i < |obs| then Ended(AutoSaveOn(obs[i]), i)
               else Running(State(true, start))
    decreases |obs|
  {
    if |obs| > 0 {
      var s := State(true, start);
      CloseWhileCounting(s, obs[0].sighting.m, obs[0].now, obs[0].key);
      if obs[0].now - start <= 1.0 {
        var rest := obs[1..];
        assert forall i :: 0 <= i < |rest| ==> rest[i] == obs[i + 1];
        HeldWhileCounting(start, rest);
      }
    }
  }

  /**
   From a state that is not counting, holding the hand in position from the
   first frame on starts the countdown there and captures exactly once, at
   the first later frame more than one second after it. A countdown that was
   reset earlier contributes nothing.
   */
  lemma HeldFromIdle(s: State, obs: seq<Observation>)
    requires !s.counting
    requires |obs| > 0
    requires forall i :: 0 <= i < |obs| ==> Qualifies(obs[i])
    ensures AllPlausible(obs)
    ensures var start := obs[0].now;
            var i := FirstExpired(obs[1..], start);
            Run(s, obs)
            == if i < |obs| - 1 then Ended(AutoSaveOn(obs[i + 1]), i + 1)
               else Running(State(true, start))
  {
    var start := obs[0].now;
    var rest := obs[1..];
    assert forall i :: 0 <= i < |rest| ==> rest[i] == obs[i + 1];
    CloseStartsCountdown(s, obs[0].sighting.m, obs[0].now, obs[0].key);
    HeldWhileCounting(start, rest);
  }

  /**
   The script's loop starts with no countdown running. Holding the hand in
   position from the very first frame saves at the first frame more than
   one second after it, and never on the first frame itself.
   */
  lemma HeldFromStart(obs: seq<Observation>)
    requires |obs| > 0
    requires forall i :: 0 <= i < |obs| ==> Qualifies(obs[i])
    ensures AllPlausible(obs)
    ensures Run(Initial, obs).Ended? ==> Run(Initial, obs).at == 1 + FirstExpired(obs[1..], obs[0].now)
    ensures Run(Initial, obs).Ended? <==> exists i :: 1 <= i < |obs| && obs[i].now - obs[0].now > 1.0
  {
    HeldFromIdle(Initial, obs);
    var start := obs[0].now;
    var rest := obs[1..];
    var k := FirstExpired(rest, start);
    if k < |rest| {
      assert rest[k] == obs[k + 1];
    } else {
      forall i | 1 <= i < |obs|
        ensures obs[i].now - start <= 1.0
      {
        assert rest[i - 1] == obs[i];
      }
    }
  }

  /**
   A countdown interrupted by a frame without a hand, or with a centred hand
   out of position, starts again from the next qualifying frame's time: it
   does not resume.
   */
  lemma ResetThenRestart(s: State, reset: Observation, q: Observation)
    requires reset.sighting.NoHandSeen? || (reset.sighting.InBox? && !reset.sighting.close)
    requires PlausibleSighting(reset.sighting)
    requires Neutral(reset.key)
    requires Qualifies(q)
    ensures AllPlausible([reset, q])
    ensures Run(s, [reset, q]) == Running(State(true, q.now))
  {
    var s' := State(false, s.start);
    if reset.sighting.NoHandSeen? {
      NoHandResets(s, reset.now, reset.key);
    } else {
      NotCloseResets(s, reset.sighting.m, reset.now, reset.key);
    }
    CloseStartsCountdown(s', q.sighting.m, q.now, q.key);
    assert [reset, q][1..] == [q];
    assert [q][1..] == [];
    assert Run(s', [q]) == Later(Run(State(true, q.now), []), 1);
  }
}
