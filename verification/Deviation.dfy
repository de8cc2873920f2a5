/** Route deviation: a sample is inside or outside the corridor, and the state
    changes only after enough outside samples in a row, or at the first inside
    one. The stored record can be lost, and reading or writing it can fail. */
module Deviation {
  import opened Rows

  datatype RouteState = OnRoute | Deviated | Unknown

  datatype Stored = Stored(state: RouteState, run: nat, detectedAt: int)

  datatype Sample = Sample(outside: bool, at: int)

  function Evaluate(previous: Option<Stored>, required: nat, s: Sample): (Stored, bool) {
    var run := if s.outside then (if previous.Some? then previous.value.run else 0) + 1 else 0;
    var before := if previous.Some? then previous.value.state else Unknown;
    var state := if s.outside then if before == Deviated || run >= required then Deviated else before else OnRoute;
    var changed := state != before;
    (Stored(state, run, if changed || previous == None then s.at else previous.value.detectedAt), changed)
  }

  /** What happens to the stored record: it expires, or a sample is evaluated,
      with a store that may fail to be read and may fail to be written. */
  datatype Event = Lost | Sampled(sample: Sample, readable: bool, writable: bool)

  function Read(stored: Option<Stored>, readable: bool): Option<Stored> {
    if readable then stored else None
  }

  function Next(stored: Option<Stored>, required: nat, e: Event): Option<Stored> {
    match e
    case Lost => None
    case Sampled(s, readable, writable) => if writable then Some(Evaluate(Read(stored, readable), required, s).0) else stored
  }

  /** The service as it runs over its stored record. */
  class Monitor {
    var stored: Option<Stored>
    const required: nat

    constructor (required: nat)
      ensures stored == None && this.required == required
    {
      stored := None;
      this.required := required;
    }

    /** The state shown to the caller, and whether a change is announced. */
    method Take(s: Sample, readable: bool, writable: bool) returns (shown: RouteState, announced: bool)
      modifies this
      ensures stored == Next(old(stored), required, Sampled(s, readable, writable))
      ensures if writable
              then (Stored(shown, stored.value.run, stored.value.detectedAt), announced) == Evaluate(Read(old(stored), readable), required, s)
              else shown == Unknown && !announced
    {
      var previous := None;
      if readable { previous := stored; }
      var run := 0;
      if s.outside {
        run := 1;
        if previous.Some? { run := previous.value.run + 1; }
      }
      var before := Unknown;
      if previous.Some? { before := previous.value.state; }
      var state := before;
      if !s.outside {
        state := OnRoute;
      } else if run >= required {
        state := Deviated;
      }
      var changed := state != before;
      var detectedAt := s.at;
      if !changed && previous.Some? { detectedAt := previous.value.detectedAt; }
      if !writable { return Unknown, false; }
      stored := Some(Stored(state, run, detectedAt));
      return state, changed;
    }
  }

  // ----- streams -----

  function After(required: nat, samples: seq<Sample>): Option<Stored> {
    if |samples| == 0 then None
    else Some(Evaluate(After(required, samples[..|samples| - 1]), required, samples[|samples| - 1]).0)
  }

  /** How many samples at the end of the stream lie outside. */
  function TrailingRun(samples: seq<Sample>): (r: nat)
    ensures r <= |samples|
    ensures forall i :: |samples| - r <= i < |samples| ==> samples[i].outside
    ensures r < |samples| ==> !samples[|samples| - 1 - r].outside
  {
    if |samples| == 0 || !samples[|samples| - 1].outside then 0 else TrailingRun(samples[..|samples| - 1]) + 1
  }

  /** The state said without history: only the trailing run and its length
      against the whole stream matter. */
  function Closed(required: nat, samples: seq<Sample>): RouteState {
    var r := TrailingRun(samples);
    if r > 0 && r >= required then Deviated
    else if r == |samples| then Unknown
    else OnRoute
  }

  /** Since the record was last lost, the stored state is the closed form. */
  lemma {:induction false} StateIsClosed(required: nat, samples: seq<Sample>)
    requires |samples| > 0
    ensures var stored := After(required, samples).value;
            stored.state == Closed(required, samples) && stored.run == TrailingRun(samples)
  {
    var n := |samples| - 1;
    if n > 0 {
      StateIsClosed(required, samples[..n]);
    } else {
      assert samples[..n] == [];
    }
  }

  /** A change is announced exactly when the closed form changes. */
  lemma ChangesAreAnnounced(required: nat, samples: seq<Sample>, s: Sample)
    ensures Evaluate(After(required, samples), required, s).1 <==> Closed(required, samples + [s]) != Closed(required, samples)
  {
    var all := samples + [s];
    assert all[..|samples|] == samples;
    StateIsClosed(required, all);
    if |samples| > 0 {
      StateIsClosed(required, samples);
    }
  }

  /** The detection time is the capture time of the sample that last changed the
      state, or of the first sample while nothing has changed. */
  lemma {:induction false} DetectedAtLastChange(required: nat, samples: seq<Sample>) returns (k: nat)
    requires |samples| > 0
    ensures k < |samples| && After(required, samples).value.detectedAt == samples[k].at
    ensures k > 0 ==> Closed(required, samples[..k + 1]) != Closed(required, samples[..k])
    ensures forall i :: k < i < |samples| ==> Closed(required, samples[..i + 1]) == Closed(required, samples[..i])
  {
    hide Closed;
    var n := |samples| - 1;
    assert samples[..n] + [samples[n]] == samples == samples[..n + 1];
    ChangesAreAnnounced(required, samples[..n], samples[n]);
    if n == 0 || Evaluate(After(required, samples[..n]), required, samples[n]).1 {
      k := n;
    } else {
      k := DetectedAtLastChange(required, samples[..n]);
      assert samples[..n][..k + 1] == samples[..k + 1] && samples[..n][..k] == samples[..k];
      forall i | k < i < |samples| ensures Closed(required, samples[..i + 1]) == Closed(required, samples[..i]) {
        if i < n { assert samples[..n][..i + 1] == samples[..i + 1] && samples[..n][..i] == samples[..i]; }
      }
    }
  }

  // ----- a store that fails -----

  function Record(required: nat, events: seq<Event>): Option<Stored> {
    if |events| == 0 then None else Next(Record(required, events[..|events| - 1]), required, events[|events| - 1])
  }

  /** The samples the record knows of: those written since it was last lost, or
      last could not be read. */
  function Remembered(events: seq<Event>): seq<Sample> {
    if |events| == 0 then []
    else
      var before := Remembered(events[..|events| - 1]);
      match events[|events| - 1]
      case Lost => []
      case Sampled(s, readable, writable) => if !writable then before else if readable then before + [s] else [s]
  }

  /** Whatever fails, the record is the closed form of the samples it knows of:
      a failed write leaves it as it was, a failed read starts it anew. */
  lemma {:induction false} RecordIsClosed(required: nat, events: seq<Event>)
    ensures Record(required, events) == After(required, Remembered(events))
    ensures Record(required, events).Some? ==>
              && Record(required, events).value.state == Closed(required, Remembered(events))
              && Record(required, events).value.run == TrailingRun(Remembered(events))
  {
    if |events| > 0 {
      var n := |events| - 1;
      RecordIsClosed(required, events[..n]);
      if events[n].Sampled? {
        assert [events[n].sample][..0] == [];
        assert (Remembered(events[..n]) + [events[n].sample])[..|Remembered(events[..n])|] == Remembered(events[..n]);
      }
    }
    if |Remembered(events)| > 0 { StateIsClosed(required, Remembered(events)); }
  }
}
