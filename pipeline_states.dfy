/** The states every pipeline goes through, position units, and state names. */
module PipelineStates {

  datatype State = Idle | Starting | Stopping | Seeking | Buffering | Playing | Paused
  {
    /**
     * Starting, stopping, seeking and buffering are transitional: a request that
     * arrives during one of them is postponed until it is over.
     */
    predicate IsTransitional()
    {
      this in {Starting, Stopping, Seeking, Buffering}
    }
  }

  datatype PositionUnit = Nanoseconds | Bytes

  const StateCount: nat := 7

  /** The enumerator value of a state, in declaration order. */
  function Ordinal(s: State): (v: nat)
    ensures v < StateCount
  {
    match s
    case Idle => 0
    case Starting => 1
    case Stopping => 2
    case Seeking => 3
    case Buffering => 4
    case Playing => 5
    case Paused => 6
  }

  const InvalidStateName: string := "<invalid>"

  /**
   * The name of an enumerator value. Values outside the enumeration (possible
   * for a C++ enum) give "<invalid>".
   */
  function StateNameOfValue(v: int): string
  {
    if v == 0 then "idle"
    else if v == 1 then "starting"
    else if v == 2 then "stopping"
    else if v == 3 then "seeking"
    else if v == 4 then "buffering"
    else if v == 5 then "playing"
    else if v == 6 then "paused"
    else InvalidStateName
  }

  /** The name of a state, used for logging. */
  function StateName(s: State): (name: string)
    ensures name != InvalidStateName
    ensures |name| > 0
  {
    StateNameOfValue(Ordinal(s))
  }

  /** Distinct states have distinct names, so a name identifies its state. */
  lemma StateNameInjective(a: State, b: State)
    ensures StateName(a) == StateName(b) ==> a == b
  {
    if a != b {
      var x, y := StateName(a), StateName(b);
      // The names already differ within their first three letters.
      assert x[0] != y[0] || x[1] != y[1] || x[2] != y[2];
    }
  }

  /** Exactly the values outside the enumeration are called "<invalid>". */
  lemma InvalidNameOnlyOutsideEnum(v: int)
    ensures StateNameOfValue(v) == InvalidStateName <==> !(0 <= v < StateCount)
  {
    if 0 <= v < StateCount {
      assert StateNameOfValue(v)[0] != '<';
    }
  }
}
