# EXTI driver for the STM32F401, modelled in Dafny

This project models the external interrupt/event controller (EXTI) driver of
the STM32F401. The driver keeps two pieces of module state:

- **the register block**: six 32-bit registers (`IMR`, `EMR`, `RTSR`, `FTSR`,
  `SWIER`, `PR`), where bit n belongs to line n;
- **one user callback slot** (`p_Handler`).

On top of that state it offers:

- **seven validate-then-act operations** (`Exti_IntEnable`,
  `Exti_IntDisable`, `Exti_EventEnable`, `Exti_EventDisable`, `Exti_EdgeCfg`,
  `Exti_ClearPending`, `Exti_SoftIntGenerate`). Each checks that the line is
  one of 0..18, 21 or 22, then sets or clears that line's bit in one or two
  registers;
- **a read of the pending register** (`Exti_GetPending`);
- **seven interrupt vectors**:
  - the vectors for lines 0 to 4 clear their own line and call the callback;
  - the vectors shared by lines 5..9 and by lines 10..15 serve the lowest
    pending line of their range.

Files:

- `exti_types.dfy` (module `ExtiTypes`) holds the header's types:
  - the 21-member line enumeration `Exti_Line_e`, with its unsigned values;
  - the edge enumeration `Exti_Edge_e`;
  - the return code;
  - the callback, an opaque handler id, with NULL as `None`.
- `bits.dfy` (module `Bits`) holds the single-bit read-modify-writes `w |= 1 << n` and
  `w &= ~(1 << n)` and what they do to a 32-bit word.
- `exti_spec.dfy` (module `ExtiSpec`) is the driver as a pure state machine:
  - one function per entry point, each from a `Controller` (registers,
    handler slot, log of events) to the next one;
  - the shared vectors' scan, as the selection function `SelectPending`;
  - the lemmas that relate several operations.
- `exti.dfy` (module `Exti`) is the driver itself.
  - Class `ExtiDriver` has the six registers and the handler slot as
    fields, plus a ghost event log.
  - One method per C function updates the fields in place.
  - Each method is proved to produce exactly the state its `ExtiSpec`
    function gives, so every property proved of the state machine holds
    of the driver.

The event log records, in order, every write of a line's bit into the
pending register (`PrWrite(line)`) and every callback call
(`HandlerCall(handler, line)`). A vector's contract states how much the log
grows: it gains `[PrWrite(l), HandlerCall(h, l)]` when a handler is installed
and `[PrWrite(l)]` when none is. So the write comes before the call in every
state, including states where the line's bit was already 1 and the write
leaves PR unchanged. `ServiceOrderObservable` shows that the reverse order
leaves a different state.

The line argument is a raw `bv32`: the enumeration is unsigned, and a C enum
variable can hold any value, which is why the driver validates it. The edge
argument is a raw `int` for the same reason.

## Model

| member | source | states |
|---|---|---|
| ExtiTypes.LineFromValue | driver/external_interrupt.h:19-42 | a value that decodes to an enumerant is that enumerant's numeric value |
| ExtiTypes.LineValueRoundTrip | driver/external_interrupt.h:21-41 | every `EXTI_LINEn` decodes back to itself from its value n |
| ExtiTypes.LineEnumerantValues | driver/external_interrupt.h:21-41 | an enumerant exists for n exactly when n is 0..18, 21 or 22, so there is none for 19, 20 or anything above 22 |
| ExtiTypes.AllLinesComplete | driver/external_interrupt.h:19-42 | the list of enumerants has 21 entries and contains every enumerant |
| ExtiTypes.AllLinesAscending | driver/external_interrupt.h:21-41 | consecutive entries of the list strictly increase in value, so no enumerant is listed twice and the enumeration has exactly 21 members |
| ExtiTypes.EdgeFromCode | driver/external_interrupt.h:48-53 | only the codes 0, 1 and 2 name an edge, and the edge decoded has that code |
| ExtiTypes.EdgeCodeRoundTrip | driver/external_interrupt.h:50-52 | `Exti_Edge_e` has the three values FALL=0, RISE=1, FALLRISE=2, each decoding back to itself |
| Bits.SetBitSpec | driver/external_interrupt.c:44 | `w \|= 1 << n` makes bit n 1 and keeps every other bit of w |
| Bits.ClearBitSpec | driver/external_interrupt.c:63 | `w &= ~(1 << n)` makes bit n 0 and keeps every other bit of w |
| Bits.SameExceptAgrees | driver/external_interrupt.c:258 | two words that agree outside bit n agree on every other single bit k |
| Bits.SetBitIdempotent | driver/external_interrupt.c:129-130 | setting a bit twice is setting it once |
| Bits.ClearBitIdempotent | driver/external_interrupt.c:120 | clearing a bit twice is clearing it once |
| Bits.ClearAfterSet | driver/external_interrupt.c:44-63 | clearing bit n after setting it gives the original word with bit n cleared |
| Bits.SetAfterClear | driver/external_interrupt.c:44-63 | setting bit n after clearing it gives the original word with bit n set |
| ExtiSpec.CheckLineValid | driver/external_interrupt.c:18-33 | the validator with the polarity its callers rely on: it accepts n exactly when `Exti_Line_e` has an enumerant with value n; an accepted line is below 32, and 19, 20 and every value from 23 up are rejected |
| ExtiSpec.CheckLineValidAsWritten | driver/external_interrupt.c:18-33 | the validator as written returns OK exactly when the intended validator returns not-OK |
| ExtiSpec.ValidatorAsWrittenInverted | driver/external_interrupt.c:22-30 | as written, the validator accepts exactly the values that name no enumerant, and rejects `EXTI_LINE0` |
| ExtiSpec.IntEnable | driver/external_interrupt.c:36-53 | returns the validator's code; on a valid line sets IMR bit n only, installs the given handler over any previous one, and leaves the other registers and the call log alone; on an invalid line nothing changes |
| ExtiSpec.IntDisable | driver/external_interrupt.c:55-71 | on a valid line clears IMR bit n only and keeps the handler and every other register; on an invalid line nothing changes |
| ExtiSpec.EventEnable | driver/external_interrupt.c:73-89 | on a valid line sets EMR bit n only, never touching IMR or the handler; on an invalid line nothing changes |
| ExtiSpec.EventDisable | driver/external_interrupt.c:91-107 | on a valid line clears EMR bit n only, never touching IMR or the handler; on an invalid line nothing changes |
| ExtiSpec.EdgeCfg | driver/external_interrupt.c:109-139 | FALL gives FTSR[n]=1 and RTSR[n]=0, RISE gives FTSR[n]=0 and RTSR[n]=1, FALLRISE sets both; other bits and the other registers are kept; an invalid line or a mode outside the enumeration changes nothing; the validator's code is returned in every case |
| ExtiSpec.ClearPending | driver/external_interrupt.c:141-157 | on a valid line ORs bit n into PR and logs that write, changing nothing else; on an invalid line nothing changes |
| ExtiSpec.SoftIntGenerate | driver/external_interrupt.c:159-175 | on a valid line sets SWIER bit n only; on an invalid line nothing changes |
| ExtiSpec.Notify | driver/external_interrupt.c:185-188 | `if (NULL != p_Handler) p_Handler(n)`: exactly one logged call with line n when a handler is installed and none when the slot is NULL; registers and slot unchanged |
| ExtiSpec.ServiceLine | driver/external_interrupt.c:182-189 | a dedicated vector ORs the line's bit into PR and changes no other register or the handler; the log gains the PR write and then, when a handler is installed, exactly one call with that line |
| ExtiSpec.ServiceOrderObservable | driver/external_interrupt.c:184-188 | calling the handler before the PR write would leave a state different from the vector's, so the vector's contract fixes the order clear-then-call |
| ExtiSpec.ServiceLineKeepsOtherPending | driver/external_interrupt.c:182-225 | servicing line n leaves the PR bit of every other line as it was |
| ExtiSpec.SharedVectorLines | driver/external_interrupt.c:227-305 | the candidates of the 5..9 and 10..15 vectors are legal lines listed in ascending order |
| ExtiSpec.SelectPending | driver/external_interrupt.c:232-257 | the scan returns a candidate whose PR bit is set with no earlier candidate set, and returns nothing exactly when no candidate is set |
| ExtiSpec.SelectPendingIsLowest | driver/external_interrupt.c:234-253 | for ascending candidates, when some candidate is pending the scan selects one and its line is no higher than any pending candidate |
| ExtiSpec.SharedIrq | driver/external_interrupt.c:227-263 | with nothing pending, the vector changes nothing; otherwise it ORs in the PR bit of the selected line only, keeps the other registers and the handler, and the log gains that line's PR write followed by at most one call, with that line |
| ExtiSpec.SharedIrqKeepsOtherPending | driver/external_interrupt.c:227-305 | every PR bit other than the served line's is the same after a shared vector as before it |
| ExtiSpec.SharedIrqAsWritten | driver/external_interrupt.c:254-262 | a shared vector with only the uninitialised-line defect kept (the clear uses the corrected validator): it behaves as the corrected one when a candidate is pending, and its last logged event is a call even when none is |
| ExtiSpec.SpuriousCallAsWritten | driver/external_interrupt.c:254-262 | for either vector (any legal candidate list, so also c:296-304) with nothing pending: the handler is called with the indeterminate value; when the corrected validator accepts that value, its PR bit is also written first, otherwise the registers stay as they were; the corrected vector changes nothing |
| ExtiSpec.EnableThenDisable | driver/external_interrupt.c:36-71 | enable then disable leaves IMR with bit n cleared and every other bit as before, the new handler installed, and nothing else changed |
| ExtiSpec.ReEnableRestores | driver/external_interrupt.c:36-71 | enable, disable, enable again gives the same result as one enable, for every line |
| ExtiSpec.EventEnableThenDisable | driver/external_interrupt.c:73-107 | event enable then disable leaves EMR bit n at 0, its other bits as before, and IMR untouched |
| ExtiSpec.EdgeCfgIdempotent | driver/external_interrupt.c:109-139 | configuring the same line and mode twice is configuring it once |
| ExtiSpec.SharedVectorPicksLowest | driver/external_interrupt.c:227-263 | with lines 6 and 8 pending and 5 not, the 5..9 vector logs the PR write of line 6 and one call with line 6, and none for line 8; that bits 6 and 8 still read 1 follows from the premises alone, since the write is an OR |
| ExtiSpec.Line13Scenario | driver/external_interrupt.c:265-305 | enable line 13, configure both edges, raise it by software: when the hardware shows line 13 as the lowest pending line, the 10..15 vector logs line 13's PR write and then one call of the handler with line 13 |
| Exti.ExtiDriver.constructor | driver/external_interrupt.c:14-15 | the driver starts with the given register contents, no handler and an empty event log |
| Exti.ExtiDriver.IntEnable | driver/external_interrupt.c:36-53 | returns and leaves exactly what `ExtiSpec.IntEnable` gives |
| Exti.ExtiDriver.IntDisable | driver/external_interrupt.c:55-71 | returns and leaves exactly what `ExtiSpec.IntDisable` gives |
| Exti.ExtiDriver.EventEnable | driver/external_interrupt.c:73-89 | returns and leaves exactly what `ExtiSpec.EventEnable` gives |
| Exti.ExtiDriver.EventDisable | driver/external_interrupt.c:91-107 | returns and leaves exactly what `ExtiSpec.EventDisable` gives |
| Exti.ExtiDriver.EdgeCfg | driver/external_interrupt.c:109-139 | returns and leaves exactly what `ExtiSpec.EdgeCfg` gives |
| Exti.ExtiDriver.ClearPending | driver/external_interrupt.c:141-157 | returns and leaves exactly what `ExtiSpec.ClearPending` gives |
| Exti.ExtiDriver.SoftIntGenerate | driver/external_interrupt.c:159-175 | returns and leaves exactly what `ExtiSpec.SoftIntGenerate` gives |
| Exti.ExtiDriver.GetPending | driver/external_interrupt.c:177-180 | returns the 32-bit PR word; it may modify nothing |
| Exti.ExtiDriver.Dispatch | driver/external_interrupt.c:185-188 | leaves exactly the state `ExtiSpec.Notify` gives: one call with the given line logged exactly when a handler is installed |
| Exti.ExtiDriver.Exti0IrqHandler | driver/external_interrupt.c:182-189 | leaves the state `ExtiSpec.ServiceLine` gives for line 0 |
| Exti.ExtiDriver.Exti1IrqHandler | driver/external_interrupt.c:191-198 | leaves the state `ExtiSpec.ServiceLine` gives for line 1 |
| Exti.ExtiDriver.Exti2IrqHandler | driver/external_interrupt.c:200-207 | leaves the state `ExtiSpec.ServiceLine` gives for line 2 |
| Exti.ExtiDriver.Exti3IrqHandler | driver/external_interrupt.c:209-216 | leaves the state `ExtiSpec.ServiceLine` gives for line 3 |
| Exti.ExtiDriver.Exti4IrqHandler | driver/external_interrupt.c:218-225 | leaves the state `ExtiSpec.ServiceLine` gives for line 4 |
| Exti.ExtiDriver.Exti9To5IrqHandler | driver/external_interrupt.c:227-263 | leaves the state `ExtiSpec.SharedIrq` gives for candidates 5..9 |
| Exti.ExtiDriver.Exti15To10IrqHandler | driver/external_interrupt.c:265-305 | leaves the state `ExtiSpec.SharedIrq` gives for candidates 10..15 |

## Left out

- The memory-mapped register block `EXTI` and its `volatile` accesses are not modelled. The registers are plain fields, and each read-modify-write is one step.
- `stm32f401re.h` is not part of this model. It defines the register layout, the `EXTI_*_BIT_MASK` macros and `ReturnType`. Each mask is taken to be `1 << n`, and `ReturnType` is the two codes `RET_OK` and `RET_NOT_OK`.
- The hardware's reaction to register writes is not modelled. That covers:
  - a 1 written to `PR` clearing the flag;
  - a read-modify-write of `PR` clearing other pending flags;
  - `SWIER` raising a `PR` flag.
  `Exti_ClearPending` is modelled as written, as `PR |= bit`. The scenario lemma takes the pending word the hardware presents as a parameter.
- NVIC enabling and priorities are left out. So is the link-time binding of the `*_IRQHandler` names to the vector table. Neither is in this code.
- Interrupt preemption and nesting are not modelled. Neither are races between configuration calls and vectors. Every operation is one atomic step.
- The callback's body is not modelled. A call is recorded in the ghost event log, with the handler as an opaque id. The callback is assumed not to touch the driver's state.
- Name mismatch: the validator is defined as `Exti_CheckLineValid` (driver/external_interrupt.c:18). Every caller uses `Exti_IsLineValid`, which is only declared (driver/external_interrupt.c:11). As written, the file does not link. The model has one validator, `ExtiSpec.CheckLineValid`, and every operation calls it.
- ExtiSpec.SharedIrqAsWritten: keeps only the uninitialised-line defect of driver/external_interrupt.c:254-262 and 296-304. Its clear goes through the corrected validator, not the inverted one of driver/external_interrupt.c:22-30. With the validator as written, a leftover value of 0..18, 21 or 22 would write nothing; 19, 20 or 23..31 would be written; and 32 or more would make the C shift undefined. That combination is not modelled.
- ExtiSpec.SharedIrq: the corrected vector is a no-op when nothing is pending. The code as written does something different there, which `SharedIrqAsWritten` models. The other option would have been a precondition that some candidate is pending; the no-op was chosen instead.

## Findings

| source | as written | input that shows it | evidently intended | confidence | as-written member | corrected member |
|---|---|---|---|---|---|---|
| driver/external_interrupt.c:22-30 | the validator returns `RET_NOT_OK` for lines 0..18, 21, 22 and `RET_OK` for all other values, and callers act only on `RET_OK` | `Exti_IntEnable(EXTI_LINE0, f)` returns not-OK and enables nothing; a value of 19 is accepted and its bit is written | accept exactly the enumerant values 0..18, 21, 22 | not executed | ExtiSpec.ValidatorAsWrittenInverted | ExtiSpec.CheckLineValid |
| driver/external_interrupt.c:254-262 | when no candidate line is pending, the uninitialised `Line_e` is passed to `Exti_ClearPending` and to the callback (the same at driver/external_interrupt.c:296-304) | the 5..9 vector entered with PR bits 5..9 all clear (or the 10..15 vector with bits 10..15 clear) and a handler installed | with nothing pending, clear nothing and make no call | not executed | ExtiSpec.SpuriousCallAsWritten | ExtiSpec.SharedIrq |
