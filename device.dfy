/**
 * Choice of the depth camera to open.  The driver is reduced to the number
 * of attached devices and an oracle `opens(i)` that says whether opening
 * device i succeeds.
 */
module Device {
  import opened Wrappers

  /** The driver reports counts and indices as unsigned 32-bit values. */
  type uint32 = x: int | 0 <= x < 0x1_0000_0000

  /** The lowest index in [i, count) whose device opens, if any. */
  function FirstOpenFrom(i: nat, count: nat, opens: nat -> bool): (r: Option<nat>)
    decreases count - i
    ensures r.Some? ==> i <= r.value < count && opens(r.value)
    ensures r.Some? ==> forall j :: i <= j < r.value ==> !opens(j)
    ensures r.None? ==> forall j :: i <= j < count ==> !opens(j)
  {
    if i >= count then None
    else if opens(i) then Some(i)
    else FirstOpenFrom(i + 1, count, opens)
  }

  /** The device the client ends up with: the first one, by index, that opens. */
  function FirstOpen(count: nat, opens: nat -> bool): Option<nat>
  {
    FirstOpenFrom(0, count, opens)
  }
}
