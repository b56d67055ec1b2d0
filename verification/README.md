# vmlatency: a verified model

vmlatency measures how long a round trip between a hypervisor and its guest takes.
Its driver (`vmm/vmx.c`) turns on VMX operation, builds one VMCS that mirrors the
host, enters a two-instruction guest whose CPUID exits at once, re-enters it
2^20 - 1 times in rounds of doubling length, and has to leave the host as it found
it, whatever fails on the way. `process-data.py` then picks one result for each
microarchitecture out of many files.

This project models the driver against a model of the processor and proves what
every run does.

- `CpuDefs`, `VmcsRegions`, `VmcsLaws`: constants, VMCS field numbers, and a VMCS as
  a map from fields to words, with series of writes and their order.
- `Processor`: the machine, and one step function for each inline of
  `vmm/asm-inlines.h` and each service of `linux/api.c`, after the Intel SDM,
  volume 3C. Whatever may go either way (allocations, the outcome of a VM entry,
  cycle counts, how VMXON inside VMX operation reports its failure) is answered by
  an arbitrary oracle, `Env`. A `log` collects the rules that are broken.
- `Trampoline`, `Calls`: `linux/vmentry.S` and `linux/guest.S` run instruction by
  instruction, and the proof that the world switch refines an ordinary call.
- `Protocol`: a run as a sequence of steps, down to single instructions of the assembly
  code and of the guest, and what the log means: it holds exactly the offences committed
  in the run, each judged in the state in which its step was taken.
- `Traces`: what holds at every point of a run. The driver's class keeps a ghost trace of
  the steps it takes; every change of the machine goes through it.
- `Segments`, `Controls`, `VmcsImage`, `Widths`, `VmcsWrites`: the values written to the
  VMCS, the image that `initialize_vmcs` has to leave as one function of the state before
  it, and the 97 writes by which it gets there.
- `Pages`, `Measurement`: the page ledger and the arithmetic of the measurement.
- `Outcome`, `Unwind`, `Runs`: the five ways a run can end, the four nested regions
  that the labels `out4` to `out1` close, and how their effects compose.
- `Driver`: the class `VmMonitor` is `vm_monitor_t` and its methods follow the C
  functions; `MeasureVmlatency` is `measure_vmlatency`. The regions between the labels
  are methods of their own, so that a `goto` is a branch to the end of its region.
- A run starts from any machine that is `Outcome.Idle`: host code, CR4.VMXE set if VMX
  operation is on, and the kernel holding the pages that VMX operation uses.
- `Departures`, `Examples`: where the code misses its evident intent, with the exact
  condition, and a machine and a processor on which each departure happens.
- `Results`: the aggregation in `process-data.py`.
- `FieldNumbers`, `Literals`, `PlainRuns`: the model against plain numbers. What the
  definitions above come to is stated without their names: each field of the VMCS by the
  number in the header, each control word by the bits of the MSR, each register after a run,
  each step of a run in flag bits.

What the code does where it departs from its intent or its comments, each stated
exactly by a member below:

- VMXON failing on a processor whose CR4.VMXE was clear leaves the bit set
  (`Departures.Cr4LeftSet`).
- After a partial allocation nothing is freed (`Departures.PagesLeaked`). `free_memory`
  itself would free the wrong page for a count of one (`Pages.FreeUndoesAllocation`).
- The comment in `vmm/asm-inlines.h` has VMXON report "already on" by CF and ZF together.
  The SDM has it report VMfail, which is ZF alone when some VMCS is current; `__vmxon`
  takes that for success, and the run ends by turning off VMX operation that it had not
  turned on (`Departures.ForeignVmxLost`, `Departures.VmxAsBefore`).
- The revision mask 0x8fffffff is right exactly when bits 31:28 of IA32_VMX_BASIC are
  clear (`Controls.RevisionMask`).
- The true processor-based controls come from the ordinary MSR: legal all the same, least
  only under a condition (`Controls.ProcWordAgainstTrueMsr`).
- The guest gets the host's SYSENTER_ESP for SYSENTER_EIP (`Departures.SysenterEipMirrored`).
- HOST_TR is written unmasked, GUEST_TR masked (`Departures.ImageSegments`).
- A first entry that is aborted while guest state is loaded counts as a launch; every
  resume after it fails, and what is printed are the times of failed resumes
  (`Departures.LaunchAborted`).
- What `do_vmresume` returns and what `handle_vmexit` finds are ignored: a printed value is
  the time of 2^n round trips only under a condition (`Departures.AllRoundTrips`).

## Model

| member | source | states |
|---|---|---|
| Driver.MeasureVmlatency | vmm/vmx.c:488-553 | for every machine, every oracle and any iteration count up to 31, a run ends in RunDone: the exact registers for each of five endings, RFLAGS and the callee-saved registers restored, memory changed only in the slot below the stack, VMX state, page ledger, numbers of entries and of visits to the guest, and broken rules as a function of the state before; latencies are printed exactly when the first entry was not refused; the driver can run again iff it did not turn off foreign VMX operation; and at every one of the recorded steps that lead there, instructions of the assembly code and of the guest included, VMX operation implies CR4.VMXE, a current VMCS implies VMX operation, and interrupts are off in the guest and from preempt_disable to preempt_enable, and whatever reads, writes or enters a VMCS finds the run's own current; VMCSs of others keep launch state and contents on every run, but for one error code in one that was current; after a measured run ES, CS, SS, DS, FS and GS hold their old bits 15:3 with the low three clear |
| Driver.VmMonitor.Perform | vmm/asm-inlines.h:62-279 | a step of host code is taken and recorded, and the point after it is safe |
| Driver.VmMonitor.Measure | vmm/vmx.c:500-547 | the same for the body without its printing, with the array of statistics equal to the table of latencies |
| Driver.VmMonitor.RunCached | vmm/vmx.c:502-547 | allocation, the protected part and release compose to the whole effect, also when an allocation fails |
| Driver.VmMonitor.RunWithPages | vmm/vmx.c:506-545 | with five pages held, freeing them after this part completes the run |
| Driver.VmMonitor.RunLocked | vmm/vmx.c:512-542 | from the attempt at VMXON to label out2, refused or not |
| Driver.VmMonitor.EnterVmx | vmm/vmx.c:512-513 | VMXON either leaves a machine in VMX operation with interrupts off and a blank VMCS page, or brings the run to label out2 |
| Driver.VmMonitor.RunVmx | vmm/vmx.c:515-542 | VMX operation ends iff this run began it, CR4.VMXE and the set of active VMCSs are as before, and other VMCSs keep launch state and contents, but for the error code of a VMPTRLD that failed in one that was current |
| Driver.VmMonitor.RunVmcs | vmm/vmx.c:518-540 | the registers are those of the last exit with both descriptor tables repaired, or untouched after a refusal; our VMCS is neither current nor active |
| Driver.VmMonitor.RunGuest | vmm/vmx.c:521-536 | refusal of the first entry skips the rounds; otherwise 2^N entries take place, the table is complete, and the number of visits to the guest is given by the outcomes; handle_vmexit gave 0 iff the first outcome's basic reason is CPUID |
| Driver.VmMonitor.MeasureRounds | vmm/vmx.c:530-536 | N rounds make 2^N - 1 resumes in all and fill every entry of the array with the latency of its round |
| Driver.VmMonitor.MeasureRound | vmm/vmx.c:531-535 | one round stores the elapsed time modulo 2^64 divided by 2^n, and visits the guest once for each of its outcomes that runs, or never if the VMCS was not launched |
| Driver.VmMonitor.ResumeRound | vmm/vmx.c:532-534 | round n makes exactly 2^n resumes, counted by a 32-bit int that does not overflow, and time advances by the sum of their cycles |
| Driver.VmMonitor.CallAsm | linux/vmentry.S:22-49 | a call has the closed-form effect Attempt, returns RAX, and records each instruction |
| Driver.VmMonitor.DoVmlaunch | linux/vmentry.S:28-32 | one call has the closed-form effect Attempt and returns RAX |
| Driver.VmMonitor.DoVmresume | linux/vmentry.S:34-42 | one call has the closed-form effect Attempt and returns RAX |
| Driver.VmMonitor.DoVmxon | vmm/vmx.c:113-132 | which of four cases VMXON is, what the machine is after each, and when VMX operation counts as ours |
| Driver.VmMonitor.DoVmxoff | vmm/vmx.c:134-143 | VMXOFF iff ours, CR4.VMXE cleared iff it was clear, and never inside VMX operation |
| Driver.VmMonitor.DoVmptrld | vmm/vmx.c:145-154 | for the fresh page: 0 iff its address is usable and its identifier right, and then it is the current VMCS, clear and blank; otherwise only an error code changes, in a VMCS that was current |
| Driver.VmMonitor.DoVmclear | vmm/vmx.c:156-165 | for our current VMCS: it succeeds, none is current and ours not active, all others are untouched |
| Driver.VmMonitor.SaveHostState | vmm/vmx.c:32-37 | restoring what was saved gives any later machine with interrupts off its descriptor tables back and leaves this one as it is |
| Driver.VmMonitor.RestoreHostState | vmm/vmx.c:39-44 | GDTR and IDTR are the saved pair, base and limit, and nothing else changes |
| Driver.VmMonitor.HandleEarlyExit | vmm/vmx.c:468-473 | reports the VM-instruction error and changes nothing |
| Driver.VmMonitor.HandleVmexit | vmm/vmx.c:475-486 | 0 exactly if the low 16 bits of the exit reason are 10, which is CPUID; changes nothing |
| Driver.VmMonitor.AllocateMemory | vmm/vmx.c:46-57 | the pages held are exactly those granted before the first failure; the count is negative unless there are five |
| Driver.VmMonitor.AllocateVmxPages | vmm/vmx.c:50-51 | how many of the first two pages were granted, and that the allocation is over if not both |
| Driver.VmMonitor.AllocateBitmaps | vmm/vmx.c:52-54 | the rest of an allocation whose first two pages were granted |
| Driver.VmMonitor.FreeMemory | vmm/vmx.c:59-67 | frees exactly the fields of Freed(cnt), in that order, and clears them |
| Driver.VmMonitor.FreeBitmaps | vmm/vmx.c:62-64 | the bitmaps among the pages to be freed go, and freeing the remainder completes the work |
| Driver.VmMonitor.FreeVmxPages | vmm/vmx.c:65-66 | the remainder goes |
| Driver.VmMonitor.AllocateVmPage | linux/api.c:25-35 | a page that nobody held, zeroed and blank, joins the ledger, or the field is empty and nothing but the number of requests has changed |
| Driver.VmMonitor.FreeVmPage | linux/api.c:37-45 | the page leaves the ledger and its field is cleared; the other fields stay |
| Driver.VmMonitor.PreemptDisable | linux/api.c:56-61 | RFLAGS is handed out, bit 9 cleared and every other bit kept, preemption one level deeper |
| Driver.VmMonitor.PreemptEnable | linux/api.c:63-68 | RFLAGS is what was handed out, preemption one level up |
| Driver.VmMonitor.ReadCapabilities | vmm/vmx.c:420-437 | with bit 55 of IA32_VMX_BASIC the pin, exit and entry words are those of the TRUE MSRs, without it those of the ordinary ones; the processor-based word is that of the ordinary MSR either way |
| Driver.VmMonitor.CacheVmxCapabilities | vmm/vmx.c:417-466 | allowed-0 and allowed-1 of pin, exit and entry are the low and high 32 bits of the TRUE MSR if bit 55 of IA32_VMX_BASIC is set, otherwise of the ordinary one; those of the processor-based controls always of the ordinary one |
| Driver.VmMonitor.VmxonSetupRevisionId | vmm/vmx.c:101-105 | the processor accepts the identifier written iff the driver's mask keeps it intact; no other page is affected |
| Driver.VmMonitor.VmcsSetupRevisionId | vmm/vmx.c:107-111 | the processor accepts the identifier written iff the driver's mask keeps it intact; no other page is affected |
| Driver.VmMonitor.InitializeVmcs | vmm/vmx.c:174-356 | it takes exactly the 97 steps of Writes(p), in this order, and whatever the VMCS held, it holds the image afterwards: one function of the state before, with HOST_RSP and the read-only fields left alone; by header number, the I/O bitmap addresses, the control words made of the MSRs under the test of bit 55, with bit 9 in the exit and entry word, bit 16 alone in the rights of ES, DS, FS, GS and LDTR, the CS and SS limits by bit 23 of LAR and the TR limit as the low 16 bits of LSL |
| Driver.VmMonitor.WriteHostMirror | vmm/vmx.c:189-269 | the first 48 of these steps |
| Driver.VmMonitor.WriteRemaining | vmm/vmx.c:271-355 | the other 49 |
| Driver.VmMonitor.Vmwrite | vmm/asm-inlines.h:149-164 | where a VMCS is current, a value that fits a writable field changes that field and nothing else |
| Driver.VmMonitor.WriteEs | vmm/vmx.c:190-195 | exactly these writes are recorded, and exactly these fields change, as the image has them |
| Driver.VmMonitor.WriteCs | vmm/vmx.c:197-204 | exactly these writes are recorded, and exactly these fields change, as the image has them |
| Driver.VmMonitor.WriteSs | vmm/vmx.c:206-213 | exactly these writes are recorded, and exactly these fields change, as the image has them |
| Driver.VmMonitor.WriteDs | vmm/vmx.c:215-220 | exactly these writes are recorded, and exactly these fields change, as the image has them |
| Driver.VmMonitor.WriteFs | vmm/vmx.c:222-229 | exactly these writes are recorded, and exactly these fields change, as the image has them |
| Driver.VmMonitor.WriteGs | vmm/vmx.c:231-238 | exactly these writes are recorded, and exactly these fields change, as the image has them |
| Driver.VmMonitor.WriteLdtr | vmm/vmx.c:240-244 | exactly these writes are recorded, and exactly these fields change, as the image has them |
| Driver.VmMonitor.WriteTables | vmm/vmx.c:246-254 | exactly these writes are recorded, and exactly these fields change, as the image has them |
| Driver.VmMonitor.WriteTr | vmm/vmx.c:256-269 | exactly these writes are recorded, and exactly these fields change, as the image has them |
| Driver.VmMonitor.WriteWideControls | vmm/vmx.c:271-279 | exactly these writes are recorded, and exactly these fields change, as the image has them |
| Driver.VmMonitor.WriteExecutionControls | vmm/vmx.c:281-290 | exactly these writes are recorded, and exactly these fields change, as the image has them |
| Driver.VmMonitor.WriteExitControls | vmm/vmx.c:291-295 | exactly these writes are recorded, and exactly these fields change, as the image has them |
| Driver.VmMonitor.WriteEntryControls | vmm/vmx.c:296-302 | exactly these writes are recorded, and exactly these fields change, as the image has them |
| Driver.VmMonitor.WriteGuestState | vmm/vmx.c:304-311 | exactly these writes are recorded, and exactly these fields change, as the image has them |
| Driver.VmMonitor.WriteCr0Cr4 | vmm/vmx.c:313-324 | exactly these writes are recorded, and exactly these fields change, as the image has them |
| Driver.VmMonitor.WriteCr3 | vmm/vmx.c:326-332 | exactly these writes are recorded, and exactly these fields change, as the image has them |
| Driver.VmMonitor.WriteFlow | vmm/vmx.c:334-347 | exactly these writes are recorded, and exactly these fields change, as the image has them |
| Driver.VmMonitor.WriteSysenter | vmm/vmx.c:349-355 | exactly these writes are recorded, and exactly these fields change, as the image has them, the guest's EIP field with the ESP value |
| VmcsWrites.WritesDiffer | vmm/vmx.c:189-355 | the 97 writes are to pairwise different fields, none read-only, every value as wide as its field |
| VmcsWrites.WritesGiveImage | vmm/vmx.c:189-355 | from any VMCS, the writes in any order give the image |
| VmcsWrites.FieldsLeft | vmm/cpu-defs.h:147-287 | a field is written iff it is in use and neither HOST_RSP nor read-only |
| Trampoline.Path | linux/vmentry.S:22-49 | from the CALL the instructions reach a RET after exactly PathLength steps and none before, through refusal, abort or guest, and that RET completes Attempt: back at the caller with its stack pointer, callee-saved registers kept, RAX 0 iff a VM exit or aborted entry occurred and 1 iff VMfail |
| Traces.Call | linux/vmentry.S:28-49 | running the instructions one by one until the RET gives Attempt; the steps are recorded and every point on the way is safe |
| Traces.CallCalm | linux/vmentry.S:22-49 | at every instruction of a call, in the host and in the guest, IF is 0, CR4.VMXE set, VMX operation on and our VMCS current |
| Traces.CallSafe | linux/vmentry.S:22-49 | so every point of a call is safe |
| Traces.CallOnOurs | linux/vmentry.S:22-49 | the run's own VMCS is current at every instruction of a call |
| Traces.BenignSafe | vmm/asm-inlines.h:62-279 | any step of host code from a safe point leads to a safe point, unless it clears CR4.VMXE in VMX operation, gives interrupts back, or accesses a VMCS that is not the run's own |
| Traces.WritesRun | vmm/asm-inlines.h:149-164 | a series of proper writes to a current VMCS changes it as the map says, and nothing else |
| Trampoline.ReturnStep | linux/vmentry.S:48-49 | the RET finds the caller's return address where HOST_RSP points |
| Trampoline.GuestExits | linux/guest.S:21-23 | the guest stands at guest_code, and the one step it takes loads host state again with the saved guest state unchanged, RIP included |
| Calls.CallsReturn | linux/vmentry.S:22-49 | any sequence of calls from any stack depths: each returns to its own site and depth, callee-saved registers are kept, the guest stands at guest_code again with its stack pointer unused, registers are untouched or those of an exit, only launch-state rules can be broken |
| Calls.CallsKeepMemory | linux/vmentry.S:22-49 | no memory is written but the slot below each call site |
| Calls.ResumesFollowLaunch | vmm/vmx.c:530-536 | resumes never change the launch state; they are lawful exactly if the VMCS was launched, and otherwise each fails with error 5 |
| Calls.GuestLeavesByCpuid | linux/guest.S:21-23 | as long as no entry is refused, aborted or cut short by an event: after a launch and any number of resumes the exit reason is 10, the VMCS launched, every entry visited the guest, RAX is 0, and no rule is broken |
| Calls.ReasonOfExit | vmm/vmx.c:475-486 | the low 16 bits of the exit reason are 10 iff the outcome says so |
| Calls.ResumesVisit | vmm/vmx.c:530-536 | resumes of a launched VMCS visit the guest as often as the outcomes run, of a clear one never |
| Calls.AttemptKeepsSession | vmm/vmx.c:334-347 | a call keeps the VMCS armed for the next one, and an exit loads exactly the host view |
| Unwind.ResumeOnce | vmm/vmx.c:532-534 | one more resume keeps the loop invariant and spends its cycles |
| Unwind.RoundVisits | vmm/vmx.c:532-534 | how many of the resumes between two points visited the guest |
| Unwind.TriesAt | vmm/asm-inlines.h:62-82 | the effect of VMXON and what __vmxon reports, case by case |
| Unwind.Launches | vmm/vmx.c:521-528 | the first entry: RAX, registers, launch state and entry count for each outcome |
| Unwind.SessionBegins | vmm/vmx.c:518-521 | with interrupts off and our VMCS loaded, the image arms the trampoline |
| Unwind.ClearsCurrent | vmm/vmx.c:539-540 | VMCLEAR of the current VMCS succeeds and leaves every other VMCS as it was |
| Unwind.Out4Done | vmm/vmx.c:538-540 | from label out4 on every path the saved descriptor tables come back and VMCLEAR succeeds |
| Unwind.Loads | vmm/vmx.c:515-516 | VMPTRLD of the fresh page succeeds iff the address is usable and the identifier right, and then it is a clear blank VMCS; otherwise error 9 or 11 is entered into the VMCS that was current, if any, and nothing else changes |
| Unwind.Out3Done | vmm/vmx.c:541-542 | do_vmxoff from label out3: VMX operation off iff ours, CR4.VMXE as before, never cleared inside VMX operation |
| Unwind.TurnsOff | vmm/vmx.c:134-143 | the exact effect of do_vmxoff; the only rule it can break is VMXOFF with an active VMCS |
| Runs.BecomesReady | vmm/vmx.c:502-510 | five granted pages are new to the processor, carry the identifier, and interrupts are off |
| Runs.TriesVmxon | vmm/vmx.c:512-513 | what each case of VMXON leads to |
| Runs.RegionToOut2 | vmm/vmx.c:515-543 | the inner region brings the run to label out2 with the registers, VMX state, entries and log that its ending prescribes |
| Runs.LedgerBalances | vmm/vmx.c:547 | all five pages are freed once, none while the processor uses it |
| Runs.Out2Done | vmm/vmx.c:543-547 | preemption, interrupts and the ledger return to what they were |
| Runs.OutOfMemoryDone | vmm/vmx.c:502-504 | a failed allocation leaves everything but the ledger alone |
| Runs.IdleAgain | vmm/vmx.c:488-553 | a further run is possible iff this one was not mistaken about VMX operation |
| Departures.RestoresExactly | vmm/vmx.c:488-553 | for each ending, the condition under which all registers are what they were |
| Departures.TablesRestored | vmm/vmx.c:538-539 | GDTR, IDTR, CR0, CR3, FS and GS bases, TR, SYSENTER_ESP and SYSENTER_EIP are restored on every path |
| Outcome.RepairedExactly | vmm/vmx.c:174-356 | after a run that entered the guest: what is restored always, and for every other register the value at which it is |
| Departures.Cr4LeftSet | vmm/vmx.c:121-127 | CR4 is not restored iff five pages were granted, VMX operation was off, CR4.VMXE clear, and the first page not addressable or bits 31:28 of IA32_VMX_BASIC not clear; then it is entry CR4 with VMXE |
| Departures.PagesLeaked | vmm/vmx.c:50-54 | no page is left over when all five are granted, k - 1 pages when the k-th request is the first to fail |
| Departures.ForeignVmxLost | vmm/asm-inlines.h:75-81 | the decoding of CF and ZF mistakes failure for success iff VMX operation was on with a current VMCS and VMXON reports VMfail |
| Departures.VmxAsBefore | vmm/vmx.c:130-138 | VMX operation ends as it began iff that did not happen; otherwise the only rule broken is resuming a VMCS that is not launched |
| Departures.ForeignVmcs | vmm/vmx.c:512-542 | the VMCS of someone else keeps launch state and contents, but for an error code if it was current and VMXON was taken for a success by mistake or VMPTRLD failed |
| Departures.LaunchAborted | vmm/vmx.c:521-536 | resumes of a clear VMCS happen iff there are rounds, VMXON and VMPTRLD succeeded and the first entry was aborted; then no entry visits the guest and the full table is printed all the same |
| Departures.AllRoundTrips | vmm/vmx.c:531-535 | a printed value is the time of 2^n round trips iff the first entry and all of the round ran |
| Departures.TripsOfRun | vmm/vmx.c:521-536 | the visits of a measured run are the first entry and the round trips of the rounds |
| Departures.RunOffences | vmm/vmx.c:488-553 | at every recorded step, also an instruction of the assembly code, a VMREAD, VMWRITE, VMLAUNCH or VMRESUME finds VMX operation on and the run's own VMCS current, a page that was nobody's before; and in a run from an empty log a rule is broken at some step iff it is among the final violations, at most VMXOFF with a VMCS active and VMRESUME of a clear VMCS, so no page is freed that is foreign or in use |
| Departures.GuestMirror | vmm/vmx.c:173-356 | the registers with which the guest starts: the host's, with five listed exceptions, and DR7 and IA32_DEBUGCTL where the entry controls load them |
| Departures.LoadsDebugIfForced | vmm/vmx.c:296-298 | they are loaded iff the capability MSR forces the control |
| Departures.SysenterEipMirrored | vmm/vmx.c:353-355 | the guest's SYSENTER_EIP is the host's iff SYSENTER_ESP and SYSENTER_EIP agree |
| Departures.ImageControls | vmm/vmx.c:281-298 | the four control words in the VMCS are legal and least for the MSRs they come from |
| Departures.ImageProcControls | vmm/vmx.c:285-286 | the processor-based word in the VMCS is legal for the TRUE MSR too, least iff both MSRs force the same bits |
| Departures.ImageSegments | vmm/vmx.c:189-258 | host selectors have RPL and TI clear, TR only if it had; CS and SS rights and limits are legal |
| Departures.ImageTss | vmm/vmx.c:262-269 | guest and host TR base are the base of whatever TSS descriptor stands in the GDT |
| Examples.VmxeLeftSet | vmm/vmx.c:121-127 | a machine and a processor on which CR4.VMXE stays set |
| Examples.PagesLeft | vmm/vmx.c:50-54 | one on which three pages stay allocated |
| Examples.ForeignVmxTurnedOff | vmm/asm-inlines.h:75-81 | one on which foreign VMX operation is turned off |
| Examples.ResumesOfNothing | vmm/vmx.c:521-536 | one on which 2^20 entries are timed and none visits the guest |
| Examples.ProcWordNotLeast | vmm/vmx.c:432-433 | capability MSRs for which the processor-based word is legal and not least for the TRUE MSR |
| Examples.LdtrLost | vmm/vmx.c:488-553 | a machine whose LDTR a measured run does not give back |
| Controls.LegalAndLeast | vmm/vmx.c:282-298 | a control word is legal iff the MSR allows the forced bits, and is contained in every legal word that has them |
| Controls.ProcWordAgainstTrueMsr | vmm/vmx.c:432-433 | against the TRUE MSR the word read from the other MSR is legal, and least iff both MSRs have the same allowed-0 settings |
| Controls.RevisionMask | vmm/vmx.c:95-99 | the identifier written is the one required iff bits 31:28 of IA32_VMX_BASIC are clear |
| Segments.SegmentLegal | vmm/vmx.c:167-171 | for every LAR result the rights have their reserved bits clear and the limit fits the granularity |
| Segments.HostSelectorLegal | vmm/vmx.c:191 | RPL and TI of a host selector are zero |
| Segments.HostSelectorKept | vmm/vmx.c:191 | a VM exit gives back the selector iff its low three bits were clear |
| Segments.TssRoundTrip | vmm/vmx.c:262-267 | decoding the two words of any TSS descriptor yields its base |
| VmcsImage.ImageHostRegs | vmm/vmx.c:189-355 | the registers that a VM exit loads from the image |
| VmcsImage.ImageArmed | vmm/vmx.c:334-347 | an exit lands at vmx_exit with VMXE set, and the guest starts at guest_code with interrupts off |
| Widths.WriteFits | vmm/cpu-defs.h:147-287 | a value that fits the width in the field number is stored unaltered |
| CpuDefs.NumbersDistinct | vmm/cpu-defs.h:147-287 | different fields have different numbers |
| CpuDefs.NumbersAsDefined | vmm/cpu-defs.h:147-287 | width, area and index give the numbers of the header |
| CpuDefs.HostRspNumber | linux/vmentry.S:24-25 | the number in RAX names HOST_RSP |
| VmcsLaws.ReadAfterWrite | vmm/asm-inlines.h:135-164 | a read gives what was last written to that field, and a write disturbs no other field |
| VmcsLaws.AllWritten | vmm/asm-inlines.h:149-164 | after writes to different fields each holds its value and the rest is as before |
| VmcsLaws.OrderOfWrites | vmm/asm-inlines.h:149-164 | after the same writes to different fields in two orders every field reads alike |
| VmcsLaws.AnyOrder | vmm/vmx.c:189-355 | series of writes to different fields that are permutations of each other leave the same VMCS |
| Pages.RequestGrows | linux/api.c:25-35 | granted pages are new, distinct and blank, and nothing else changes |
| Pages.FreeAllClean | linux/api.c:37-45 | freeing distinct held pages that the processor does not use takes exactly them off the ledger |
| Pages.FreeUndoesAllocation | vmm/vmx.c:59-67 | free_memory(cnt) frees the fields that cnt allocations fill iff cnt is not 1 |
| Pages.FreedAll | vmm/vmx.c:62-66 | free_memory(5) frees each page once |
| Measurement.WrapAround | vmm/vmx.c:535 | the difference of two readings is the elapsed time modulo 2^64, wherever the counter wraps |
| Measurement.StoredLatency | vmm/vmx.c:531-535 | what the subtraction and division of the two readings store |
| Measurement.LatencyBounds | vmm/vmx.c:530-536 | lo <= value <= hi + floor(c / 2^n), and within [lo, hi] once 2^n exceeds c |
| Measurement.LatencyExact | vmm/vmx.c:535 | the value is the true quotient iff the round is shorter than 2^64 cycles |
| Measurement.BitBound | vmm/vmx.c:532 | up to round 30 the loop bound is at most 2^30 |
| Outcome.TableEntries | vmm/vmx.c:549-552 | every entry that is printed was stored, by the resumes that follow those of the rounds before |
| Outcome.PrintedBounds | vmm/vmx.c:549-552 | the bound for every printed value |
| Protocol.StepRecorded | vmm/asm-inlines.h:62-279 | a step, also an instruction of the assembly code or the guest, logs exactly the rules it breaks |
| Protocol.LogIsExact | vmm/asm-inlines.h:62-279 | over any sequence of steps the log is exactly the set of offences committed; RunOffences applies it to runs of the driver |
| Protocol.SaneThroughout | vmm/vmx.c:113-165 | for any sequence of steps, the driver's or not: if VmxeClearedInVmx is not logged, VMX operation implies CR4.VMXE and a current VMCS implies VMX operation at every point |
| Literals.ImageGuestSelectors | vmm/vmx.c:190-258 | fields 0x0800 to 0x080e: the selectors as they are, TR without RPL and TI |
| Literals.ImageHostSelectors | vmm/vmx.c:190-259 | fields 0x0c00 to 0x0c0c: the selectors with the low three bits clear, TR as it is |
| Literals.HostSelectorIndex | vmm/vmx.c:191 | a host selector has the index of the original, for every selector, and RPL and TI clear |
| Literals.ImageFlatLimits | vmm/vmx.c:194-243 | the limits of ES, DS, FS, GS and LDTR are 0xffffffff, those of CS and SS 0xffffffff iff bit 23 of what LAR returned is set, otherwise 0xffff |
| Literals.ImageTrLimit | vmm/vmx.c:256-260 | field 0x480e is the low 16 bits of what LSL returned |
| Literals.ImageTableLimits | vmm/vmx.c:246-252 | fields 0x4810 and 0x4812 are the limits of GDTR and IDTR |
| Literals.ImageRights | vmm/vmx.c:195-261 | rights of ES, DS, FS, GS and LDTR are bit 16 alone, those of CS, SS and TR the bits of LAR |
| Literals.ImageGuestState | vmm/vmx.c:304-310 | interruptibility, activity and SMBASE are 0, SYSENTER_CS its low 32 bits |
| Literals.ImageGuestNatural | vmm/vmx.c:193-354 | fields 0x6800 to 0x6826 but 0x6814: each a host register or a literal |
| Literals.ImageHostNatural | vmm/vmx.c:227-355 | fields 0x6c00 to 0x6c16 but 0x6c0a: each a host register, HOST_RIP the slot of vmx_exit, HOST_RSP as before |
| Literals.ImageTrBases | vmm/vmx.c:262-269 | fields 0x6814 and 0x6c0a are decoded from the quadwords at GDTR base plus TR and 8 bytes on |
| Literals.TssBits | vmm/vmx.c:264-267 | which bits of the two quadwords are bits 15:0, 23:16, 31:24 and 63:32 of the base |
| Literals.ImageWide | vmm/vmx.c:271-279 | the I/O bitmap addresses, the link pointer of all ones, and zero in the other 64-bit fields; the read-only fields as before |
| Literals.ImagePinProcWords | vmm/vmx.c:282-286 | fields 0x4000 and 0x4002 from the bits of the MSRs, with the test of bit 55 for the pin-based one |
| Literals.ImageExitWord | vmm/vmx.c:291-293 | field 0x400c from the bits of the MSR that bit 55 selects, with bit 9 added |
| Literals.ImageEntryWord | vmm/vmx.c:296-298 | field 0x4012 likewise |
| Literals.PinLeast | vmm/vmx.c:439-444 | the pin-based word has the bits that the MSR selected by bit 55 demands, only such as it allows, and none that it could do without |
| Literals.ProcLeast | vmm/vmx.c:446-451 | the same of the processor-based word and IA32_VMX_PROCBASED_CTLS |
| Literals.ExitLeast | vmm/vmx.c:453-458 | the exit word has bit 9 and the demanded bits, is allowed iff bit 9 is, and is part of every such word |
| Literals.EntryLeast | vmm/vmx.c:460-465 | the same of the entry word |
| Literals.ImageControlConstants | vmm/vmx.c:287-332 | all ones in the exception bitmap, zero in the counts, masks, shadows, targets and event fields |
| Literals.ComputedFields | vmm/vmx.c:174-356 | the computed fields of the image of a machine, as InitializeVmcs ensures them |
| Literals.MsrsRead | vmm/vmx.c:422-437 | which MSR each control word comes from, by bit 55 |
| FieldNumbers.ExitLoads | vmm/cpu-defs.h:147-287 | the registers that a VM exit loads, by field number |
| FieldNumbers.EntryLoads | vmm/cpu-defs.h:147-287 | the registers that a VM entry loads, by field number |
| FieldNumbers.EntryLoadsDebug | vmm/cpu-defs.h:147-287 | it loads DR7 and IA32_DEBUGCTL iff bit 2 of field 0x4012 is set |
| PlainRuns.ReturnValue | linux/vmentry.S:22-49 | RAX is 1 where the launch state is wrong or the entry refused, otherwise 0 |
| PlainRuns.CallLeaves | linux/vmentry.S:22-49 | the error code, exit reason and RFLAGS that a call leaves, case by case in numbers |
| PlainRuns.ErrorCodes | vmm/vmx.c:512-516 | which of the codes 9, 11 and 15 a run enters into a VMCS of someone else |
| PlainRuns.FlagsRead | vmm/asm-inlines.h:75-82 | how bits 0 and 6 of RFLAGS are read after VMXON, VMPTRLD and VMCLEAR |
| PlainRuns.RevisionWritten | vmm/vmx.c:95-99 | the identifier is the low half of IA32_VMX_BASIC without bits 30:28 |
| PlainRuns.RevisionAgrees | vmm/vmx.c:95-99 | the processor accepts it iff bits 31:28 of the MSR are clear |
| PlainRuns.Masks | linux/api.c:56-61 | RFLAGS keeps all bits but bit 9 |
| PlainRuns.RunSelectors | vmm/vmx.c:488-553 | after a measured run six segment registers have their old bits 15:3 and the low three clear |
| PlainRuns.RunRegisters | vmm/vmx.c:488-553 | after a measured run every other register is unchanged, but for LDTR, TR base and limit, SYSENTER_CS, DR7 and IA32_DEBUGCTL with the literal values they get |
| PlainRuns.RunTrBase | vmm/vmx.c:262-269 | the TR base after a measured run comes from the two quadwords of the GDT |
| PlainRuns.RunUnmeasured | vmm/vmx.c:121-127 | after any other run no register differs, but for CR4 bit 13 where VMXON failed |
| PlainRuns.MeasuredExactly | vmm/vmx.c:502-527 | when the guest is entered: allocations, flags, the identifier bits, both addresses and the first outcome |
| PlainRuns.PointOfRun | vmm/vmx.c:509-545 | at every point of a run: CR4 bit 13 in VMX operation, RFLAGS bit 9 clear in the guest and with preemption disabled |
| PlainRuns.AccessOfRun | vmm/vmx.c:515-540 | every VMREAD, VMWRITE, VMLAUNCH and VMRESUME, in C or assembly code, finds the second granted page current, which was nobody's |
| PlainRuns.StepOfRun | vmm/vmx.c:488-553 | in a run from an empty log: what VMXON, writes of CR4, VMXOFF and free_page find, and RFLAGS bit 9 clear at every privileged instruction of the C code |
| Results.Aggregate | process-data.py:65-91 | fails iff some file fails, with the failure of the first; otherwise the table has exactly the microarchitectures with a reliable file, each with the least minimum and the average of the first file attaining it |
| Results.ReadFile | process-data.py:69-79 | the average and the least sample of a file, or why there is none |
| Results.SummaryUnique | process-data.py:69-79 | the declarative summary of a file determines its result |
| Results.LeastIsMinimum | process-data.py:71-76 | the search from sys.maxint ends with a sample iff some sample does not exceed it |
| Results.ReliableInIntegers | process-data.py:81-83 | the 80 % filter in integers, with its sense reversed for a negative total |
| Results.CountsInIntegers | process-data.py:69-91 | in integers, for n samples of total t and least value l: the file counts for u iff no line is malformed, n > 0, t is not 0, 100 l n >= 80 t (<= for negative t) and the processor is of microarchitecture u; its entry is (t / n, l) |
| Results.FailsInIntegers | process-data.py:69-86 | it fails iff a line is malformed, n = 0, t = 0, or it passes the filter and the processor is unknown; which failure each case has |
| Results.MsrIgnored | process-data.py:73-74 | an IA32_ line changes nothing, wherever it stands |
| Results.SampleCounted | process-data.py:75-78 | a sample, wherever it stands, adds one to the count and itself to the total |
| Results.SamplesJoined | process-data.py:72-78 | the samples of two runs of lines are those of the first followed by those of the second |
| Results.SumJoined | process-data.py:77 | the total of no sample, of one, and of two lists joined |
| Results.FirstSelected | process-data.py:87-91 | of the files that attain the minimum the first gives the average |
| Results.MinimumIgnoresOrder | process-data.py:61-91 | the microarchitectures and their minima do not depend on the order of the files |
| Results.AverageIgnoresOrder | process-data.py:87-91 | the average does not depend on it iff all files that attain the minimum have the same average |

## Left out

- Printing, brand strings and log messages of the driver, and the gates `has_vmx`, `vmx_enabled` and `print_vmx_info`: output, and MSR reads without effect on a run.
- The instructions that the C compiler makes: RIP and RSP of the machine stand for one call site per run; other sites and depths are covered by `Calls`.
- The operating system behind `linux/api.c`, the module entry points, and the Mac and Windows variants of the same code.
- Of the guest state that a VM exit saves only RIP, RSP and RFLAGS are modelled: the other saved values are those that were loaded.
- The checks of VM entry: their outcome is an oracle for each entry, apart from launch state; the properties of the VMCS that they test are proved only as listed.
- The status flags that an instruction leaves in RFLAGS: CF and ZF are results of a step; a failed entry and a VM exit leave only what the model needs of RFLAGS.
- Interrupts themselves and NMIs: that IF is clear at every step is proved; an event that exits before the guest's first instruction is covered.
- A VMCS that was current when a run began with VMX operation on keeps its contents as proved, but the run does not make it current again (`Runs.FinalCurrent`).
- RAX, the time stamp counter, the contents of freed pages and the VMXON pointer once VMX operation is off: a run leaves them as they come out.
- A freshly zeroed page is taken to be a VMCS in the clear state, as the driver does by not executing VMCLEAR first.
- The ghost trace records what the class does; the machine is changed in `VmMonitor.Perform`, `VmMonitor.CallAsm` and `VmMonitor.PreemptEnable`, each of which records the steps it takes, and nowhere else. Computations of the C code between steps take no time in the model but for one `Pass` in each round.
- The text of result files: a line is an MSR line, a sample or malformed; the table of `name2uarch` is an arbitrary partial function, and the listing at lines 93 to 107 is not modelled.
- Rounding of floating point in `process-data.py`: averages are real numbers.
