/** The four priority levels of a download job and the one-level demotion used on retry. */
module Priorities {
  import opened Common

  datatype Priority = LOW | NORMAL | HIGH | URGENT {

    /** The enum member's integer value, which is also the heap key the queue sorts by. */
    function Value(): (v: int)
      ensures 1 <= v <= 4
    {
      match this
      case LOW => 1
      case NORMAL => 2
      case HIGH => 3
      case URGENT => 4
    }
  }

  /** `Priority(v)`: the member whose value is `v` (only ever called with a valid value). */
  function FromValue(v: int): (p: Priority)
    requires 1 <= v <= 4
    ensures p.Value() == v
  {
    if v == 1 then LOW else if v == 2 then NORMAL else if v == 3 then HIGH else URGENT
  }

  /** `Priority(max(p.value - 1, 1))`: one level lower, floored at LOW. */
  function Demote(p: Priority): (r: Priority)
    ensures r.Value() <= p.Value()
    ensures r == p <==> p == LOW
    ensures p != LOW ==> r.Value() == p.Value() - 1
  {
    FromValue(Max(p.Value() - 1, 1))
  }

  /** `k` successive demotions. */
  function DemoteTimes(p: Priority, k: nat): (r: Priority)
  {
    if k == 0 then p else Demote(DemoteTimes(p, k - 1))
  }

  /** After `k` demotions the level is `k` below the start, but never below LOW. */
  lemma {:induction false} DemoteTimesValue(p: Priority, k: nat)
    ensures DemoteTimes(p, k).Value() == Max(p.Value() - k, 1)
  {
    if k > 0 {
      DemoteTimesValue(p, k - 1);
    }
  }
}
