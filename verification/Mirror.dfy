/** The user-facing PowerMonitor's status: a gated copy of its PowerMonitorInternal's. */
module Mirror {
  import opened Common
  import opened Api

  /** Some condition has observed the current generation. */
  ghost predicate HasChanged(conditions: seq<Condition>, generation: int) {
    exists i :: 0 <= i < |conditions| && conditions[i].observedGeneration == generation
  }

  /** The internal status with every condition stamped with the copy's own generation. */
  function Copied(status: Status, generation: int): (copy: Status)
    ensures copy.kepler == status.kepler && |copy.conditions| == |status.conditions|
    ensures forall i :: 0 <= i < |copy.conditions| ==>
              && copy.conditions[i].observedGeneration == generation
              && copy.conditions[i].(observedGeneration := status.conditions[i].observedGeneration)
                == status.conditions[i]
  {
    var cs := status.conditions;
    Status(status.kepler, seq(|cs|, i requires 0 <= i < |cs| => cs[i].(observedGeneration := generation)))
  }

  method HasPowerMonitorInternalStatusChanged(conditions: seq<Condition>, generation: int) returns (changed: bool)
    ensures changed <==> HasChanged(conditions, generation)
  {
    for i := 0 to |conditions|
      invariant forall j :: 0 <= j < i ==> conditions[j].observedGeneration != generation
    {
      if conditions[i].observedGeneration == generation {
        return true;
      }
    }
    return false;
  }

  /** The fetched PowerMonitor, whose condition list is rewritten in place. */
  class PowerMonitor {
    const generation: int
    const deleting: bool
    var kepler: Counters
    var conditions: array<Condition>

    ghost function Value(): Status
      reads this, conditions
    {
      Status(kepler, conditions[..])
    }

    constructor (generation: int, deleting: bool, status: Status)
      ensures this.generation == generation && this.deleting == deleting && Value() == status && fresh(conditions)
    {
      this.generation, this.deleting, kepler := generation, deleting, status.kepler;
      var list := status.conditions;
      conditions := new Condition[|list|](i requires 0 <= i < |list| => list[i]);
    }

    /** One attempt of updatePowerMonitorStatus up to the write; `internal` is None when the
        resource is gone or cannot be read. */
    method CopyStatus(internal: Option<Pmi>) returns (write: bool)
      modifies this
      ensures write <==> !deleting && internal.Some? && !internal.value.deleting
                         && HasChanged(internal.value.status.conditions, internal.value.generation)
      ensures Value() == if write then Copied(internal.value.status, generation) else old(Value())
    {
      if deleting || internal.None? || internal.value.deleting {
        return false;
      }
      var status := internal.value.status;
      var changed := HasPowerMonitorInternalStatusChanged(status.conditions, internal.value.generation);
      if !changed {
        return false;
      }
      var list := status.conditions;
      kepler := status.kepler;
      conditions := new Condition[|list|](i requires 0 <= i < |list| => list[i]);
      for i := 0 to conditions.Length
        invariant fresh(conditions) && conditions.Length == |list| && kepler == status.kepler
        invariant conditions[..i] == Copied(status, generation).conditions[..i]
        invariant conditions[i..] == list[i..]
      {
        assert conditions[i] == conditions[i..][0] == list[i];
        conditions[i] := conditions[i].(observedGeneration := generation);
        assert conditions[..i + 1] == conditions[..i] + [conditions[i]];
      }
      assert Copied(status, generation).conditions[..|list|] == Copied(status, generation).conditions;
      assert conditions[..] == conditions[..conditions.Length];
      return true;
    }
  }
}
