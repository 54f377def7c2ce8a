// The transaction manager as a machine: one step per call made to it.
module Machine {
  import opened Base
  import opened Table
  import opened ClientSteps
  import opened ServerSteps

  // One slot of the pump
  function RunSlot(tm: Tm, i: nat, now: nat, ch: Choice): (r: Ran)
    requires i < |tm.slots|
    ensures |r.tm.slots| == |tm.slots|
  {
    if !tm.slots[i].active then Ran(tm, Never, Ok)
    else if tm.slots[i].role.Client? then ClientRun(tm, i, now, ch)
    else ServerRun(tm, i, now, ch)
  }

  // usipy_sip_tm_run: the slots in turn, up to the first failure
  function PumpFrom(tm: Tm, i: nat, now: nat, ch: nat -> Choice, next: Deadline): (r: Ran)
    requires i <= |tm.slots|
    ensures |r.tm.slots| == |tm.slots|
    decreases |tm.slots| - i
  {
    if i == |tm.slots| then Ran(tm, next, Ok)
    else
      var r := RunSlot(tm, i, now, ch(i));
      if r.rc != Ok then Ran(r.tm, Earliest(next, r.next), r.rc)
      else PumpFrom(r.tm, i + 1, now, ch, Earliest(next, r.next))
  }

  function Pump(tm: Tm, now: nat, ch: nat -> Choice): (r: Ran)
    ensures |r.tm.slots| == |tm.slots|
  {
    PumpFrom(tm, 0, now, ch, Never)
  }
}
