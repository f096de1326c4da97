/** Graceful degradation of batch spans. Each span, known by its start address,
    is Normal, Degraded or Skipped; the three Go maps default to zero values. */
module SpanTrackers {
  import opened Registers

  const PROBE_INTERVAL := 10
  const DEFAULT_THRESHOLD := 3

  datatype SpanState = Normal | Degraded | Skipped

  /** What the three maps say of one span. */
  datatype Record = Record(failCount: nat, state: SpanState, indivFails: nat)

  const FRESH := Record(0, Normal, 0)

  function Get<V>(m: map<word, V>, a: word, zero: V): V {
    if a in m then m[a] else zero
  }

  /** The fields of a `SpanTracker` as a value. */
  datatype Tracker = Tracker(
    failCounts: map<word, nat>,
    states: map<word, SpanState>,
    indivFails: map<word, nat>,
    threshold: int,
    cycle: nat)
  {
    function At(a: word): Record {
      Record(Get(failCounts, a, 0), State(a), Get(indivFails, a, 0))
    }

    function State(a: word): SpanState {
      Get(states, a, Normal)
    }

    function RecordSuccess(a: word): Tracker {
      if At(a).failCount > 0 || State(a) != Normal then
        this.(states := states[a := Normal], failCounts := failCounts[a := 0], indivFails := indivFails[a := 0])
      else
        this
    }

    function RecordFailure(a: word): Tracker {
      var n := At(a).failCount + 1;
      this.(failCounts := failCounts[a := n],
            states := if State(a) == Normal && n >= threshold then states[a := Degraded] else states)
    }

    function RecordIndividualFailure(a: word): Tracker {
      var n := At(a).indivFails + 1;
      this.(indivFails := indivFails[a := n],
            states := if n >= 2 then states[a := Skipped] else states)
    }

    function Tick(): Tracker {
      this.(cycle := cycle + 1)
    }

    function ShouldProbe(a: word): bool {
      State(a) != Normal && cycle > 0 && cycle % PROBE_INTERVAL == 0
    }

    function Reset(): Tracker {
      New(threshold)
    }

    static function New(threshold: int): Tracker {
      Tracker(map[], map[], map[], threshold, 0)
    }
  }

  class SpanTracker {
    var failCounts: map<word, nat>
    var states: map<word, SpanState>
    var indivFails: map<word, nat>
    const threshold: int
    var cycle: nat

    ghost function Value(): Tracker
      reads this
    {
      Tracker(failCounts, states, indivFails, threshold, cycle)
    }

    constructor (threshold: int)
      ensures Value() == Tracker.New(threshold)
    {
      failCounts, states, indivFails := map[], map[], map[];
      this.threshold := threshold;
      cycle := 0;
    }

    function State(a: word): (s: SpanState)
      reads this
      ensures s == Value().State(a)
    {
      Get(states, a, Normal)
    }

    function ShouldProbe(a: word): (b: bool)
      reads this
      ensures b == Value().ShouldProbe(a)
    {
      if State(a) == Normal then false else cycle > 0 && cycle % PROBE_INTERVAL == 0
    }

    method RecordSuccess(a: word)
      modifies this
      ensures Value() == old(Value()).RecordSuccess(a)
    {
      if Get(failCounts, a, 0) > 0 || State(a) != Normal {
        states := states[a := Normal];
        failCounts := failCounts[a := 0];
        indivFails := indivFails[a := 0];
      }
    }

    method RecordFailure(a: word) returns (degraded: bool)
      modifies this
      ensures Value() == old(Value()).RecordFailure(a)
      ensures degraded == (Value().State(a) != Normal)
    {
      failCounts := failCounts[a := Get(failCounts, a, 0) + 1];
      if State(a) == Normal && failCounts[a] >= threshold {
        states := states[a := Degraded];
      }
      degraded := State(a) != Normal;
    }

    method RecordIndividualFailure(a: word) returns (skipped: bool)
      modifies this
      ensures Value() == old(Value()).RecordIndividualFailure(a)
      ensures skipped == (Value().State(a) == Skipped)
    {
      indivFails := indivFails[a := Get(indivFails, a, 0) + 1];
      if indivFails[a] >= 2 {
        states := states[a := Skipped];
      }
      skipped := State(a) == Skipped;
    }

    method Tick()
      modifies this
      ensures Value() == old(Value()).Tick()
    {
      cycle := cycle + 1;
    }

    method Reset()
      modifies this
      ensures Value() == old(Value()).Reset()
    {
      states := map[];
      failCounts := map[];
      indivFails := map[];
      cycle := 0;
    }
  }
}
