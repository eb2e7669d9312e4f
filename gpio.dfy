/** The button handler: an RF remote and a row of backup push buttons, polled
    in a loop that fires a button's action on the edge that means "pressed".
    RF receiver outputs idle low (pull-down) and go high while a button is
    held; the backup buttons idle high (pull-up) and go low while pressed. */
module Gpio {

  /** A BCM pin number. */
  type Pin = nat

  datatype Level = Low | High

  /** What a button does: the three recorder toggles of the main window and
      the shutdown of the machine. The actions themselves are not modelled. */
  datatype Action = ToggleAudioRecording | ToggleVideoRecording | CaptureImage | Shutdown

  /** The handler's tables: pin_to_action, the order in which the poll loop
      visits its keys (the insertion order of the dictionary), rf_pins and
      backup_pins. */
  datatype Wiring = Wiring(pinToAction: map<Pin, Action>, order: seq<Pin>, rfPins: seq<Pin>, backupPins: seq<Pin>)

  const Board: Wiring := Wiring(
    map[22 := ToggleAudioRecording, 17 := ToggleVideoRecording, 23 := CaptureImage, 27 := Shutdown,
        6 := ToggleAudioRecording, 13 := ToggleVideoRecording, 12 := CaptureImage],
    [22, 17, 23, 27, 6, 13, 12],
    [22, 17, 23, 27],
    [6, 13, 12])

  /** The loop visits every mapped pin exactly once per sweep. */
  predicate WellFormed(w: Wiring)
  {
    && Mapped(w, w.order)
    && (forall p :: p in w.pinToAction ==> p in w.order)
    && Distinct(w.order)
  }

  predicate Distinct(pins: seq<Pin>)
  {
    forall i, j :: 0 <= i < j < |pins| ==> pins[i] != pins[j]
  }

  /** The board's visiting order lists every mapped pin exactly once. */
  lemma BoardWellFormed()
    ensures WellFormed(Board)
  {
  }

  /** The RF and backup lists are disjoint, and together they are the
      visiting order. */
  lemma BoardPinLists()
    ensures forall p :: p in Board.rfPins ==> p !in Board.backupPins
    ensures Board.rfPins + Board.backupPins == Board.order
  {
  }

  /** Only pin 27 shuts the machine down. */
  lemma BoardShutdownPin()
    ensures forall p :: p in Board.pinToAction && Board.pinToAction[p] == Shutdown <==> p == 27
  {
  }

  /** One reading of every input, as GPIO.input would return it. */
  type Sampler = Pin -> Level

  /** The press rule of the poll loop: a rising edge on an RF pin, a falling
      edge on a backup pin. */
  predicate IsPress(w: Wiring, pin: Pin, last: Level, current: Level)
  {
    || (pin in w.rfPins && current == High && last == Low)
    || (pin in w.backupPins && current == Low && last == High)
  }

  /** A press is a change of level on a button pin; a button held down (or
      left alone) reads the same level again and does not fire again. */
  lemma PressIsChange(w: Wiring, pin: Pin, last: Level, current: Level)
    ensures IsPress(w, pin, last, current) ==> last != current && pin in w.rfPins + w.backupPins
    ensures !IsPress(w, pin, current, current)
  {
  }

  /** A detected press: the pin, the action it ran, and whether that action
      raised (the exception is caught and only reported). */
  datatype Press = Press(pin: Pin, action: Action, raised: bool)

  /** The loop's state: last_state and every press so far. */
  datatype Polled = Polled(last: map<Pin, Level>, presses: seq<Press>)

  /** last_state has an entry for every mapped pin. */
  predicate Tracks(w: Wiring, st: Polled)
  {
    Covers(w, st.last)
  }

  predicate Covers(w: Wiring, last: map<Pin, Level>)
  {
    forall p :: p in w.pinToAction ==> p in last
  }

  predicate Mapped(w: Wiring, pins: seq<Pin>)
  {
    forall i :: 0 <= i < |pins| ==> pins[i] in w.pinToAction
  }

  /** last_state before the loop: every mapped pin read once. */
  function Initial(w: Wiring, reading: Sampler): (st: Polled)
    ensures Tracks(w, st) && st.presses == []
    ensures forall p :: p in w.pinToAction ==> st.last[p] == reading(p)
  {
    Polled(map p | p in w.pinToAction :: reading(p), [])
  }

  /** One pin of one sweep. `raises` holds the positions, counted over all
      presses, whose action raises. */
  function PinStep(w: Wiring, st: Polled, reading: Sampler, pin: Pin, raises: set<nat>): (r: Polled)
    requires Tracks(w, st) && pin in w.pinToAction
    ensures Tracks(w, r)
    ensures r.last[pin] == reading(pin) && forall p :: p != pin && p in st.last ==> p in r.last && r.last[p] == st.last[p]
    ensures IsPress(w, pin, st.last[pin], reading(pin)) ==>
      r.presses == st.presses + [Press(pin, w.pinToAction[pin], |st.presses| in raises)]
    ensures !IsPress(w, pin, st.last[pin], reading(pin)) ==> r.presses == st.presses
  {
    var current := reading(pin);
    var presses :=
      if IsPress(w, pin, st.last[pin], current)
      then st.presses + [Press(pin, w.pinToAction[pin], |st.presses| in raises)]
      else st.presses;
    Polled(st.last[pin := current], presses)
  }

  /** The inner for loop over `pins`. */
  function SweepRun(w: Wiring, st: Polled, reading: Sampler, pins: seq<Pin>, raises: set<nat>): (r: Polled)
    requires Tracks(w, st) && Mapped(w, pins)
    ensures Tracks(w, r) && |r.presses| >= |st.presses| && r.presses[..|st.presses|] == st.presses
    ensures |r.presses| <= |st.presses| + |pins|
  {
    if pins == [] then st
    else PinStep(w, SweepRun(w, st, reading, pins[..|pins| - 1], raises), reading, pins[|pins| - 1], raises)
  }

  /** After the loop over `pins`, last_state holds this sweep's reading for
      each visited pin and is unchanged elsewhere, whether or not the pin
      fired. */
  lemma {:induction false} SweepLast(w: Wiring, st: Polled, reading: Sampler, pins: seq<Pin>, raises: set<nat>)
    requires Tracks(w, st) && Mapped(w, pins)
    ensures forall p :: p in w.pinToAction ==>
      SweepRun(w, st, reading, pins, raises).last[p] == if p in pins then reading(p) else st.last[p]
  {
    if pins != [] {
      var n := |pins|;
      SweepLast(w, st, reading, pins[..n - 1], raises);
      assert forall p :: p in pins <==> p in pins[..n - 1] || p == pins[n - 1];
    }
  }

  /** The outer while loop over successive sweeps, each visiting the pins in
      the handler's order. */
  function PollRun(w: Wiring, st: Polled, sweeps: seq<Sampler>, raises: set<nat>): (r: Polled)
    requires WellFormed(w) && Tracks(w, st)
    ensures Tracks(w, r) && |r.presses| >= |st.presses| && r.presses[..|st.presses|] == st.presses
  {
    if sweeps == [] then st
    else SweepRun(w, PollRun(w, st, sweeps[..|sweeps| - 1], raises), sweeps[|sweeps| - 1], w.order, raises)
  }

  /** Reference definition of a sweep's presses: the pins of `pins`, in
      order, whose reading makes an edge against `last`, the table as it was
      before the sweep; `k` is the number of earlier presses. */
  function Edges(w: Wiring, last: map<Pin, Level>, reading: Sampler, pins: seq<Pin>, k: nat, raises: set<nat>): seq<Press>
    requires Mapped(w, pins) && Covers(w, last)
  {
    if pins == [] then []
    else
      var n := |pins|;
      var e := Edges(w, last, reading, pins[..n - 1], k, raises);
      var p := pins[n - 1];
      if IsPress(w, p, last[p], reading(p)) then e + [Press(p, w.pinToAction[p], k + |e| in raises)] else e
  }

  lemma DistinctPrefix(pins: seq<Pin>)
    requires pins != [] && Distinct(pins)
    ensures Distinct(pins[..|pins| - 1]) && pins[|pins| - 1] !in pins[..|pins| - 1]
  {
  }

  /** Since a sweep visits each pin once, every pin is compared with its
      reading from the previous sweep: the presses a sweep adds are exactly
      Edges against the table as it stood before the sweep. */
  lemma {:induction false} SweepMatchesEdges(w: Wiring, st: Polled, reading: Sampler, pins: seq<Pin>, raises: set<nat>)
    requires Tracks(w, st) && Mapped(w, pins) && Distinct(pins)
    ensures SweepRun(w, st, reading, pins, raises).presses == st.presses + Edges(w, st.last, reading, pins, |st.presses|, raises)
  {
    if pins != [] {
      var n := |pins|;
      DistinctPrefix(pins);
      SweepMatchesEdges(w, st, reading, pins[..n - 1], raises);
      SweepLast(w, st, reading, pins[..n - 1], raises);
    }
  }

  /** The pins of a run of presses, in order. */
  function Pins(presses: seq<Press>): (pins: seq<Pin>)
    ensures |pins| == |presses|
  {
    if presses == [] then [] else Pins(presses[..|presses| - 1]) + [presses[|presses| - 1].pin]
  }

  lemma PinsSnoc(presses: seq<Press>, x: Press)
    ensures Pins(presses + [x]) == Pins(presses) + [x.pin]
  {
  }

  /** A pin of `pins` fires in Edges exactly when it makes an edge, and a pin
      outside `pins` never does. */
  lemma {:induction false} EdgesFire(w: Wiring, last: map<Pin, Level>, reading: Sampler, pins: seq<Pin>, k: nat,
                                     raises: set<nat>, p: Pin)
    requires Mapped(w, pins) && Covers(w, last) && Distinct(pins)
    ensures p in Pins(Edges(w, last, reading, pins, k, raises)) <==> p in pins && IsPress(w, p, last[p], reading(p))
  {
    if pins != [] {
      var n := |pins|;
      DistinctPrefix(pins);
      EdgesFire(w, last, reading, pins[..n - 1], k, raises, p);
      var e := Edges(w, last, reading, pins[..n - 1], k, raises);
      var q := pins[n - 1];
      if IsPress(w, q, last[q], reading(q)) {
        PinsSnoc(e, Press(q, w.pinToAction[q], k + |e| in raises));
      }
      assert p in pins <==> p in pins[..n - 1] || p == q;
    }
  }

  /** The edge rule of one sweep: pin p fires in the sweep exactly when it is
      an RF pin going from LOW to HIGH or a backup pin going from HIGH to LOW
      between the previous reading and this one. */
  lemma SweepFiresOnEdge(w: Wiring, st: Polled, reading: Sampler, raises: set<nat>, p: Pin)
    requires WellFormed(w) && Tracks(w, st) && p in w.pinToAction
    ensures var r := SweepRun(w, st, reading, w.order, raises);
      p in Pins(r.presses[|st.presses|..])
      <==> (p in w.rfPins && st.last[p] == Low && reading(p) == High)
           || (p in w.backupPins && st.last[p] == High && reading(p) == Low)
  {
    SweepMatchesEdges(w, st, reading, w.order, raises);
    EdgesFire(w, st.last, reading, w.order, |st.presses|, raises, p);
    var r := SweepRun(w, st, reading, w.order, raises);
    assert r.presses[|st.presses|..] == Edges(w, st.last, reading, w.order, |st.presses|, raises);
  }

  /** After a sweep last_state is exactly that sweep's reading of every pin,
      whether or not the pin fired. */
  lemma SweepRecordsReading(w: Wiring, st: Polled, reading: Sampler, raises: set<nat>)
    requires WellFormed(w) && Tracks(w, st)
    ensures forall p :: p in w.pinToAction ==> SweepRun(w, st, reading, w.order, raises).last[p] == reading(p)
  {
    SweepLast(w, st, reading, w.order, raises);
  }

  /** An action that raises is caught and the loop goes on with the next pin:
      which pins fire, and last_state, do not depend on which actions raise. */
  lemma {:induction false} RaisesDoNotStopPolling(w: Wiring, st: Polled, sweeps: seq<Sampler>, raises: set<nat>, others: set<nat>)
    requires WellFormed(w) && Tracks(w, st)
    ensures PollRun(w, st, sweeps, raises).last == PollRun(w, st, sweeps, others).last
    ensures Pins(PollRun(w, st, sweeps, raises).presses) == Pins(PollRun(w, st, sweeps, others).presses)
  {
    if sweeps != [] {
      var n := |sweeps|;
      RaisesDoNotStopPolling(w, st, sweeps[..n - 1], raises, others);
      SweepIgnoresRaises(w, PollRun(w, st, sweeps[..n - 1], raises), PollRun(w, st, sweeps[..n - 1], others),
                         sweeps[n - 1], w.order, raises, others);
    }
  }

  lemma {:induction false} SweepIgnoresRaises(w: Wiring, a: Polled, b: Polled, reading: Sampler, pins: seq<Pin>,
                                              raises: set<nat>, others: set<nat>)
    requires Tracks(w, a) && Tracks(w, b) && Mapped(w, pins)
    requires a.last == b.last && Pins(a.presses) == Pins(b.presses)
    ensures SweepRun(w, a, reading, pins, raises).last == SweepRun(w, b, reading, pins, others).last
    ensures Pins(SweepRun(w, a, reading, pins, raises).presses) == Pins(SweepRun(w, b, reading, pins, others).presses)
  {
    if pins != [] {
      var n := |pins|;
      SweepIgnoresRaises(w, a, b, reading, pins[..n - 1], raises, others);
      var ra := SweepRun(w, a, reading, pins[..n - 1], raises);
      var rb := SweepRun(w, b, reading, pins[..n - 1], others);
      var p := pins[n - 1];
      assert SweepRun(w, a, reading, pins, raises) == PinStep(w, ra, reading, p, raises);
      assert SweepRun(w, b, reading, pins, others) == PinStep(w, rb, reading, p, others);
      if IsPress(w, p, ra.last[p], reading(p)) {
        PinsSnoc(ra.presses, Press(p, w.pinToAction[p], |ra.presses| in raises));
        PinsSnoc(rb.presses, Press(p, w.pinToAction[p], |rb.presses| in others));
      }
    }
  }

  class GpioHandler {
    /** pin_to_action, rf_pins and backup_pins. */
    const wiring: Wiring
    var running: bool

    /** The handler starts with the board's tables and `running` set. */
    constructor ()
      ensures wiring == Board && running
    {
      wiring := Board;
      running := true;
    }

    /** poll_gpio: last_state is read once from every mapped pin, then each
        sweep visits the pins in dictionary order, fires the action of a pin
        that makes an edge, and stores the reading. The loop runs while
        `running`; a handler that was cleaned up polls nothing. */
    method PollGpio(initial: Sampler, sweeps: seq<Sampler>, raises: set<nat>)
      returns (presses: seq<Press>, lastState: map<Pin, Level>)
      requires WellFormed(wiring)
      ensures running ==> Polled(lastState, presses) == PollRun(wiring, Initial(wiring, initial), sweeps, raises)
      ensures !running ==> Polled(lastState, presses) == Initial(wiring, initial)
    {
      lastState := map p | p in wiring.pinToAction :: initial(p);
      presses := [];
      var i := 0;
      while i < |sweeps| && running
        invariant 0 <= i <= |sweeps|
        invariant !running ==> i == 0
        invariant Polled(lastState, presses) == PollRun(wiring, Initial(wiring, initial), sweeps[..i], raises)
      {
        presses, lastState := Sweep(sweeps[i], raises, presses, lastState);
        assert sweeps[..i + 1][..i] == sweeps[..i];
        i := i + 1;
      }
      if running {
        assert sweeps[..|sweeps|] == sweeps;
      }
    }

    /** One pass of the for loop over pin_to_action: each pin's reading is
        compared with last_state, a press runs the pin's action, and the
        reading is stored. */
    method Sweep(reading: Sampler, raises: set<nat>, presses: seq<Press>, lastState: map<Pin, Level>)
      returns (presses': seq<Press>, lastState': map<Pin, Level>)
      requires WellFormed(wiring) && Covers(wiring, lastState)
      ensures Polled(lastState', presses') == SweepRun(wiring, Polled(lastState, presses), reading, wiring.order, raises)
    {
      presses', lastState' := presses, lastState;
      ghost var st := Polled(lastState, presses);
      for j := 0 to |wiring.order|
        invariant Polled(lastState', presses') == SweepRun(wiring, st, reading, wiring.order[..j], raises)
      {
        var pin := wiring.order[j];
        assert wiring.order[..j + 1][..j] == wiring.order[..j];
        ghost var next := PinStep(wiring, Polled(lastState', presses'), reading, pin, raises);
        assert SweepRun(wiring, st, reading, wiring.order[..j + 1], raises) == next;
        var current := reading(pin);
        if IsPress(wiring, pin, lastState'[pin], current) {
          // the action runs here; an exception from it is caught and reported
          var raised := |presses'| in raises;
          presses' := presses' + [Press(pin, wiring.pinToAction[pin], raised)];
        }
        lastState' := lastState'[pin := current];
      }
      assert wiring.order[..|wiring.order|] == wiring.order;
    }

    /** cleanup: clears `running`, so the poll loop does not start another
        sweep. */
    method Cleanup()
      modifies this`running
      ensures !running
    {
      running := false;
    }
  }
}
