/**
 * The EXTI driver as the C file implements it: the register block and the
 * handler slot are fields updated in place by each entry point. Every
 * method is proved to take the state to the one the matching `ExtiSpec`
 * function describes, so the properties proved there hold of the driver.
 */
module Exti {
  import opened ExtiTypes
  import opened Bits
  import opened ExtiSpec

  class ExtiDriver {
    /** `EXTI_IMR`, `EXTI_EMR`, `EXTI_RTSR`, `EXTI_FTSR`, `EXTI_SWIER`, `EXTI_PR`. */
    var imr: bv32
    var emr: bv32
    var rtsr: bv32
    var ftsr: bv32
    var swier: bv32
    var pr: bv32

    /** The file-scope `p_Handler`; `None` is NULL. */
    var handler: Option<HandlerId>

    /** Every pending-register write and handler call so far, oldest first. */
    ghost var events: seq<Event>

    /** The driver's state as a value of the state machine. */
    ghost function Snapshot(): Controller
      reads this
    {
      Controller(Registers(imr, emr, rtsr, ftsr, swier, pr), handler, events)
    }

    /** The driver at start-up: registers as the hardware presents them, no handler. */
    constructor (regs: Registers)
      ensures Snapshot() == Controller(regs, None, [])
    {
      imr, emr, rtsr, ftsr := regs.imr, regs.emr, regs.rtsr, regs.ftsr;
      swier, pr := regs.swier, regs.pr;
      handler := None;
      events := [];
    }

    /** `Exti_IntEnable`. */
    method IntEnable(n: bv32, h: Option<HandlerId>) returns (ret: ReturnType)
      modifies this
      ensures ret == ExtiSpec.IntEnable(old(Snapshot()), n, h).ret
      ensures Snapshot() == ExtiSpec.IntEnable(old(Snapshot()), n, h).after
    {
      ret := CheckLineValid(n);
      if ret == RetOk {
        imr := SetBit(imr, n);
        handler := h;
      }
    }

    /** `Exti_IntDisable`. */
    method IntDisable(n: bv32) returns (ret: ReturnType)
      modifies this
      ensures ret == ExtiSpec.IntDisable(old(Snapshot()), n).ret
      ensures Snapshot() == ExtiSpec.IntDisable(old(Snapshot()), n).after
    {
      ret := CheckLineValid(n);
      if ret == RetOk {
        imr := ClearBit(imr, n);
      }
    }

    /** `Exti_EventEnable`. */
    method EventEnable(n: bv32) returns (ret: ReturnType)
      modifies this
      ensures ret == ExtiSpec.EventEnable(old(Snapshot()), n).ret
      ensures Snapshot() == ExtiSpec.EventEnable(old(Snapshot()), n).after
    {
      ret := CheckLineValid(n);
      if ret == RetOk {
        emr := SetBit(emr, n);
      }
    }

    /** `Exti_EventDisable`. */
    method EventDisable(n: bv32) returns (ret: ReturnType)
      modifies this
      ensures ret == ExtiSpec.EventDisable(old(Snapshot()), n).ret
      ensures Snapshot() == ExtiSpec.EventDisable(old(Snapshot()), n).after
    {
      ret := CheckLineValid(n);
      if ret == RetOk {
        emr := ClearBit(emr, n);
      }
    }

    /** `Exti_EdgeCfg`; `mode` is the raw value of the `Exti_Edge_e` argument. */
    method EdgeCfg(n: bv32, mode: int) returns (ret: ReturnType)
      modifies this
      ensures ret == ExtiSpec.EdgeCfg(old(Snapshot()), n, mode).ret
      ensures Snapshot() == ExtiSpec.EdgeCfg(old(Snapshot()), n, mode).after
    {
      ret := CheckLineValid(n);
      if ret == RetOk {
        if mode == Fall.Code() {
          ftsr := SetBit(ftsr, n);
          rtsr := ClearBit(rtsr, n);
        } else if mode == Rise.Code() {
          ftsr := ClearBit(ftsr, n);
          rtsr := SetBit(rtsr, n);
        } else if mode == FallRise.Code() {
          ftsr := SetBit(ftsr, n);
          rtsr := SetBit(rtsr, n);
        }
      }
    }

    /** `Exti_ClearPending`. */
    method ClearPending(n: bv32) returns (ret: ReturnType)
      modifies this
      ensures ret == ExtiSpec.ClearPending(old(Snapshot()), n).ret
      ensures Snapshot() == ExtiSpec.ClearPending(old(Snapshot()), n).after
    {
      ret := CheckLineValid(n);
      if ret == RetOk {
        pr := SetBit(pr, n);
        events := events + [PrWrite(n)];
      }
    }

    /** `Exti_SoftIntGenerate`. */
    method SoftIntGenerate(n: bv32) returns (ret: ReturnType)
      modifies this
      ensures ret == ExtiSpec.SoftIntGenerate(old(Snapshot()), n).ret
      ensures Snapshot() == ExtiSpec.SoftIntGenerate(old(Snapshot()), n).after
    {
      ret := CheckLineValid(n);
      if ret == RetOk {
        swier := SetBit(swier, n);
      }
    }

    /** `Exti_GetPending`: the pending register, read without changing anything. */
    method GetPending() returns (p: bv32)
      ensures p == pr
    {
      p := pr;
    }

    /** `if (NULL != p_Handler) p_Handler(n);`, recorded in the event log. */
    method Dispatch(n: bv32)
      modifies this
      ensures Snapshot() == Notify(old(Snapshot()), n)
    {
      if handler.Some? {
        events := events + [HandlerCall(handler.value, n)];
      }
    }

    /** `EXTI0_IRQHandler`. */
    method Exti0IrqHandler()
      modifies this
      ensures Snapshot() == ServiceLine(old(Snapshot()), 0)
    {
      var _ := ClearPending(0);
      Dispatch(0);
    }

    /** `EXTI1_IRQHandler`. */
    method Exti1IrqHandler()
      modifies this
      ensures Snapshot() == ServiceLine(old(Snapshot()), 1)
    {
      var _ := ClearPending(1);
      Dispatch(1);
    }

    /** `EXTI2_IRQHandler`. */
    method Exti2IrqHandler()
      modifies this
      ensures Snapshot() == ServiceLine(old(Snapshot()), 2)
    {
      var _ := ClearPending(2);
      Dispatch(2);
    }

    /** `EXTI3_IRQHandler`. */
    method Exti3IrqHandler()
      modifies this
      ensures Snapshot() == ServiceLine(old(Snapshot()), 3)
    {
      var _ := ClearPending(3);
      Dispatch(3);
    }

    /** `EXTI4_IRQHandler`. */
    method Exti4IrqHandler()
      modifies this
      ensures Snapshot() == ServiceLine(old(Snapshot()), 4)
    {
      var _ := ClearPending(4);
      Dispatch(4);
    }

    /**
     * `EXTI9_5_IRQHandler`: read the pending register once, test lines 5 to
     * 9 in order and serve the first one pending; with none pending, do
     * nothing.
     */
    method Exti9To5IrqHandler()
      modifies this
      ensures Snapshot() == SharedIrq(old(Snapshot()), Vector9To5Lines)
    {
      SharedVectorLines();
      var pending := GetPending();
      var sel := SelectPending(pending, Vector9To5Lines);
      if sel.Some? {
        var line := Vector9To5Lines[sel.value];
        var _ := ClearPending(line);
        Dispatch(line);
      }
    }

    /**
     * `EXTI15_10_IRQHandler`: as the 5..9 vector, over lines 10 to 15.
     */
    method Exti15To10IrqHandler()
      modifies this
      ensures Snapshot() == SharedIrq(old(Snapshot()), Vector15To10Lines)
    {
      SharedVectorLines();
      var pending := GetPending();
      var sel := SelectPending(pending, Vector15To10Lines);
      if sel.Some? {
        var line := Vector15To10Lines[sel.value];
        var _ := ClearPending(line);
        Dispatch(line);
      }
    }
  }
}
