/**
 The capture gate of the measurement loop: the countdown state, key
 handling, and the transition taken on a frame once its geometry has been
 evaluated into a `Sighting`.
 */
module Countdown {
  import opened Units

  /** Key codes, after masking to the low byte. */
  const KeyEsc: int := 27
  const KeyCapture: int := 99  // 'c'

  /**
   The loop's state across iterations. `start` is only read while `counting`;
   a reset clears `counting` and leaves a stale `start` behind.
   */
  datatype State = State(counting: bool, start: real)

  /** Before the first frame no countdown runs (`countdown_start` is still unset). */
  const Initial: State := State(false, 0.0)

  /** Hand width and height in inches, calibration offsets included. */
  datatype Measurement = Measurement(widthIn: real, heightIn: real)

  /** A measurement never falls below the calibration offsets. */
  predicate Plausible(m: Measurement) {
    WidthAdjustmentIn <= m.widthIn && HeightAdjustmentIn <= m.heightIn
  }

  /** What one frame shows once its geometry has been evaluated. */
  datatype Sighting =
    | NoFrame                             // the camera read failed
    | NoHandSeen                          // the detector found no hand
    | OffCentre                           // a hand, not inside the shrunk guide box
    | InBox(m: Measurement, close: bool)  // a centred hand, its size, and the proximity gate

  predicate PlausibleSighting(c: Sighting) {
    c.InBox? ==> Plausible(c.m)
  }

  datatype Capture = Auto | Manual

  datatype Outcome =
    | Continue(next: State)
    | Save(how: Capture, category: int, size: Measurement)
    | Stop

  /** `key & 0xFF`. */
  function KeyByte(key: int): (b: int)
    ensures 0 <= b < 256
    ensures (key - b) % 256 == 0
  {
    key % 256
  }

  /** A key that neither stops nor captures. */
  predicate Neutral(key: int) {
    KeyByte(key) != KeyEsc && KeyByte(key) != KeyCapture
  }

  /** Whole seconds left on the countdown: `int(COUNTDOWN_SECONDS - elapsed)`. */
  function Remaining(elapsed: real): (r: int)
    ensures r > 0 <==> elapsed <= CountdownSeconds - 1.0
  {
    Trunc(CountdownSeconds - elapsed)
  }

  /** A countdown is running and no whole second is left on it. */
  function Expired(s: State, now: real): (expired: bool)
    ensures expired <==> s.counting && now - s.start > CountdownSeconds - 1.0
  {
    s.counting && Remaining(now - s.start) <= 0
  }

  /** Saving reports the size category of the measurement taken on the same frame. */
  function SaveWith(how: Capture, m: Measurement): (o: Outcome)
    requires Plausible(m)
    ensures o.Save? && o.how == how && o.size == m
    ensures m.widthIn * m.heightIn <= o.category as real < m.widthIn * m.heightIn + 1.0
    ensures 1 <= o.category
  {
    assert WidthAdjustmentIn * HeightAdjustmentIn <= m.widthIn * m.heightIn;
    Save(how, WeightCategory(m.widthIn, m.heightIn), m)
  }

  /**
   Key handling at the end of an iteration that did not auto-capture:
   ESC stops, 'c' saves only if the hand was centred on this frame
   (`centred` then holds its measurement), anything else goes on with `s`.
   */
  function KeyStep(s: State, key: int, centred: Sighting): (o: Outcome)
    requires PlausibleSighting(centred)
    ensures o.Stop? <==> KeyByte(key) == KeyEsc
    ensures o.Save? <==> KeyByte(key) == KeyCapture && centred.InBox?
    ensures o.Save? ==> o.how == Manual && o.size == centred.m
    ensures o.Continue? ==> o.next == s
  {
    var k := KeyByte(key);
    if k == KeyEsc then Stop
    else if k == KeyCapture && centred.InBox? then SaveWith(Manual, centred.m)
    else Continue(s)
  }

  /**
   The countdown state machine and key handling on an evaluated frame.
   Only a running countdown on a centred, close frame can expire, and an
   expiry saves before any key is looked at.
   */
  function Transition(s: State, c: Sighting, now: real, key: int): (o: Outcome)
    requires PlausibleSighting(c)
    ensures o.Save? && o.how == Auto <==> c.InBox? && c.close && Expired(s, now)
    ensures o.Save? && o.how == Manual <==>
              c.InBox? && !(c.close && Expired(s, now)) && KeyByte(key) == KeyCapture
    ensures o.Stop? <==> c.NoFrame? || (!(c.InBox? && c.close && Expired(s, now)) && KeyByte(key) == KeyEsc)
    ensures o.Save? ==> c.InBox? && o.size == c.m
    ensures o.Save? ==> o.category == WeightCategory(o.size.widthIn, o.size.heightIn) && 1 <= o.category
  {
    match c
    case NoFrame => Stop
    case NoHandSeen => KeyStep(State(false, s.start), key, NoHandSeen)
    case OffCentre => KeyStep(s, key, OffCentre)
    case InBox(m, close) =>
      if !close then KeyStep(State(false, s.start), key, c)
      else if !s.counting then KeyStep(State(true, now), key, c)
      else if Remaining(now - s.start) > 0 then KeyStep(s, key, c)
      else SaveWith(Auto, m)
  }

  // ---------------------------------------------------------------------
  // Transitions of the countdown
  // ---------------------------------------------------------------------

  /** No hand: the countdown is cleared, and 'c' does nothing. */
  lemma NoHandResets(s: State, now: real, key: int)
    requires KeyByte(key) != KeyEsc
    ensures Transition(s, NoHandSeen, now, key) == Continue(State(false, s.start))
  {}

  /** A hand that is not centred leaves the countdown exactly as it was, running or not. */
  lemma OutsideBoxKeepsState(s: State, now: real, key: int)
    requires KeyByte(key) != KeyEsc
    ensures Transition(s, OffCentre, now, key) == Continue(s)
  {}

  /** A centred hand that fails the proximity gate clears the countdown. */
  lemma NotCloseResets(s: State, m: Measurement, now: real, key: int)
    requires Plausible(m)
    requires Neutral(key)
    ensures Transition(s, InBox(m, false), now, key) == Continue(State(false, s.start))
  {}

  /**
   The first qualifying frame starts the countdown at this frame's time and
   never auto-captures, whatever the key.
   */
  lemma CloseStartsCountdown(s: State, m: Measurement, now: real, key: int)
    requires Plausible(m)
    requires !s.counting
    ensures var o := Transition(s, InBox(m, true), now, key);
            !(o.Save? && o.how == Auto)
    ensures Neutral(key) ==> Transition(s, InBox(m, true), now, key) == Continue(State(true, now))
  {}

  /**
   While counting, a qualifying frame captures exactly when more than one
   second has elapsed; otherwise the state is kept.
   */
  lemma CloseWhileCounting(s: State, m: Measurement, now: real, key: int)
    requires Plausible(m)
    requires s.counting
    ensures var o := Transition(s, InBox(m, true), now, key);
            o.Save? && o.how == Auto <==> now - s.start > 1.0
    ensures now - s.start > 1.0 ==> Transition(s, InBox(m, true), now, key) == SaveWith(Auto, m)
    ensures now - s.start <= 1.0 && Neutral(key) ==> Transition(s, InBox(m, true), now, key) == Continue(s)
  {}

  /** Two states that differ only in a stale `start` behave alike. */
  predicate Equivalent(a: State, b: State) {
    a.counting == b.counting && (a.counting ==> a.start == b.start)
  }

  predicate EquivalentOutcomes(o: Outcome, o': Outcome) {
    if o.Continue? then o'.Continue? && Equivalent(o.next, o'.next) else o == o'
  }

  /**
   While no countdown runs, the leftover `start` of an earlier, reset
   countdown has no influence: a restarted countdown begins afresh.
   */
  lemma StaleStartIgnored(a: State, b: State, c: Sighting, now: real, key: int)
    requires Equivalent(a, b)
    requires PlausibleSighting(c)
    ensures EquivalentOutcomes(Transition(a, c, now, key), Transition(b, c, now, key))
  {}
}
