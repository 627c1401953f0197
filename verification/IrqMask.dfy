/** Critical sections (`include/util.h`): a section remembers whether interrupts were enabled, disables
    them, and at its end enables them only if they were. Sections nest.
  */
module IrqMask {

  /** Code made of pieces of work and of critical sections around code. */
  datatype Code = Work(id: nat) | Then(first: Code, second: Code) | Section(body: Code)

  /** A piece of work and how many sections it is in. */
  datatype Placed = Placed(id: nat, depth: nat)

  function Works(c: Code, depth: nat): seq<Placed> {
    match c
    case Work(id) => [Placed(id, depth)]
    case Then(a, b) => Works(a, depth) + Works(b, depth)
    case Section(body) => Works(body, depth + 1)
  }

  /** A piece of work that was done and whether an interrupt could come in. */
  datatype Done = Done(id: nat, interruptible: bool)

  /** Work can be interrupted when it is in no section and interrupts were enabled to begin with. */
  function Protected(ws: seq<Placed>, enabled: bool): seq<Done> {
    seq(|ws|, i requires 0 <= i < |ws| => Done(ws[i].id, enabled && ws[i].depth == 0))
  }

  lemma {:induction false} DeepIsProtected(c: Code, d: nat, e: nat, enabled: bool)
    requires d > 0
    ensures |Works(c, d)| == |Works(c, e)| && Protected(Works(c, d), enabled) == Protected(Works(c, e), false)
  {
    match c
    case Work(id) =>
    case Then(a, b) =>
      DeepIsProtected(a, d, e, enabled);
      DeepIsProtected(b, d, e, enabled);
      ProtectedJoin(Works(a, d), Works(b, d), enabled);
      ProtectedJoin(Works(a, e), Works(b, e), false);
    case Section(body) => DeepIsProtected(body, d + 1, e + 1, enabled);
  }

  lemma ProtectedJoin(a: seq<Placed>, b: seq<Placed>, enabled: bool)
    ensures Protected(a + b, enabled) == Protected(a, enabled) + Protected(b, enabled)
  {}

  class Cpu {
    var primask: bool
    var done: seq<Done>

    constructor ()
      ensures !primask && done == []
    {
      primask, done := false, [];
    }

    /** `is_irq_enabled` */
    predicate IsIrqEnabled()
      reads this
    {
      !primask
    }

    /** `disable_irq` */
    method DisableIrq() returns (wasEnabled: bool)
      modifies this`primask
      ensures wasEnabled == old(IsIrqEnabled()) && !IsIrqEnabled()
    {
      wasEnabled := !primask;
      primask := true;
    }

    /** `restore_irq` */
    method RestoreIrq(wasEnabled: bool)
      modifies this`primask
      ensures IsIrqEnabled() == (wasEnabled || old(IsIrqEnabled()))
    {
      if wasEnabled {
        primask := false;
      }
    }

    /** Running any code leaves the mask as it was, and no interrupt comes into any section, however
        deep the sections nest. */
    method Run(c: Code)
      modifies this
      ensures IsIrqEnabled() == old(IsIrqEnabled())
      ensures done == old(done) + Protected(Works(c, 0), old(IsIrqEnabled()))
      decreases c
    {
      match c
      case Work(id) =>
        done := done + [Done(id, !primask)];
      case Then(a, b) =>
        Run(a);
        Run(b);
        ProtectedJoin(Works(a, 0), Works(b, 0), old(IsIrqEnabled()));
      case Section(body) =>
        var wasEnabled := DisableIrq();
        Run(body);
        RestoreIrq(wasEnabled);
        DeepIsProtected(body, 1, 0, old(IsIrqEnabled()));
    }
  }
}
