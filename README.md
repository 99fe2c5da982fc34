# VS1053 audio feed engine and K5-J721E pin and GIO register code, in Dafny

This project models two parts of a NuttX tree and proves what each promises.

**The VS1053 audio decoder driver** (`drivers/audio/vs1053.c`). The model covers:
- the streaming feed engine `vs1053_feeddata`. While the decoder raises DREQ, it pushes the active buffer to the chip in 32-byte blocks. After the final, short buffer it sends end-fill bytes and counts them against two thresholds: 32*65 bytes to request SM_CANCEL, and 32*130 bytes to hard-reset the chip;
- the buffer queue: `vs1053_enqueuebuffer` and the first pop in `vs1053_start`;
- the worker thread's message loop and teardown;
- the DREQ interrupt handler, pause and resume;
- the volume, balance and tone arithmetic: `vs1053_logapprox`, `vs1053_setvolume` and `vs1053_setbass`.

The engine is a set of functions over a `Run`:
- the device record;
- oracles for everything the hardware and OS answer: DREQ levels, SCI register reads, `sem_wait` outcomes and the worker's messages;
- an event log of what the driver does on the SPI bus and towards the upper half.

The class `Vs1053Driver.Vs1053` holds the device fields. Its methods update them in place, and each method is proved to compute the matching function. The properties are lemmas about those functions:
- within one `vs1053_feeddata` call, every byte a buffer holds is sent in order, or dropped, and only by a cancelled stream;
- over a whole worker session that receives no STOP, nothing is dropped and the audio goes out in order;
- buffers are reported back in FIFO order when every queue lock is granted;
- the drain counter counts fill blocks;
- the worker always ends with exactly one completion report.

**The K5-J721E board support code.** The model covers:
- the IOMM pin-multiplex register macros (`k5_j721e_iomm.h`);
- `k5_j721e_pin_multiplex` and `k5_j721e_io_multiplex` (`k5_j721e_clockconfig.c`);
- GIO pin configuration, write and read (`k5_j721e_gio.c`);
- second-level GIO interrupt decoding, per-pin interrupt setup, enable and disable (`k5_j721e_gioirq.c`).

Registers are a `RegisterFile` object:
- a map from register to its last stored value;
- the ordered list of every `putreg32`.

Each routine is a method on that object. It is proved equal to a function on a register-bus value, and the properties are lemmas about that function.

Files:

| file | module | contents |
|---|---|---|
| k5_mmio.dfy | K5Mmio | register file, `putreg32`, bit set/clear read-modify-writes, masked update |
| k5_iomm.dfy | K5Iomm | PINMMR offsets, kicker registers, REGNDX/PINSHIFT/PINMASK/PINVALUE |
| k5_pinmux.dfy | K5Pinmux | pin_multiplex, io_multiplex and the table loop |
| k5_gio.dfy | K5Gio | configgio phases, giowrite, gioread |
| k5_gio_props.dfy | K5GioProps | what configgio does to each register |
| k5_gioirq.dfy | K5GioIrq | OFF1 dispatch, enable/disable guard, gioirq edge setup, initialize |
| vs1053_feed.dfy | Vs1053Feed | device record, oracles, event log; feeddata and the worker as functions |
| vs1053_feed_props.dfy | Vs1053FeedProps | accounting of bytes, buffers and callbacks; drain thresholds; worker termination |
| vs1053_control.dfy | Vs1053Control | enqueue, start's first pop, DREQ ISR, pause, resume |
| vs1053_levels.dfy | Vs1053Levels | logapprox, volume/balance word, bass/treble word |
| vs1053_driver.dfy | Vs1053Driver | the driver object whose methods update the device record in place |
| wrappers.dfy | Wrappers | the `Option` datatype both parts use |

## Model

| member | source | states |
|---|---|---|
| K5Mmio.Put | arch/arm/src/k5-j721e/k5_j721e_gio.c:124 | a store makes the register read back the stored value, leaves every other register as it was, and appends exactly that store to the store log |
| K5Mmio.RegisterFile.GetReg | arch/arm/src/k5-j721e/k5_j721e_gio.c:122 | `getreg32` returns the register's current value and changes nothing |
| K5Mmio.RegisterFile.PutReg | arch/arm/src/k5-j721e/k5_j721e_gio.c:124 | `putreg32` replaces that register's value only and appends the store to the log |
| K5Mmio.UpdateSetsInside | arch/arm/src/k5-j721e/k5_j721e_clockconfig.c:395-399 | a masked update `(w & ~mask) \| x`, with x inside the mask, leaves exactly x in the masked bits |
| K5Mmio.UpdateKeepsOutside | arch/arm/src/k5-j721e/k5_j721e_clockconfig.c:395-399 | a masked update leaves every bit outside the mask as it was |
| K5Mmio.UpdateTwice | arch/arm/src/k5-j721e/k5_j721e_clockconfig.c:395-399 | a masked update is idempotent |
| K5Mmio.UpdateKeepsDisjoint | arch/arm/src/k5-j721e/k5_j721e_clockconfig.c:395-399 | a masked update leaves any field disjoint from its mask unchanged |
| K5Mmio.SetKeeps | arch/arm/src/k5-j721e/k5_j721e_gio.c:152-154 | `reg \|= mask` leaves the bits outside the mask unchanged |
| K5Mmio.SetBitsSets | arch/arm/src/k5-j721e/k5_j721e_gio.c:152-154 | after a read-modify-write `reg \|= mask` every mask bit of the register is set |
| K5Mmio.ClearBitsClears | arch/arm/src/k5-j721e/k5_j721e_gio.c:122-124 | after a read-modify-write `reg &= ~mask` no mask bit of the register is set |
| K5Iomm.PinmmrOffsetsAgree | arch/arm/src/k5-j721e/hardware/k5_j721e_iomm.h:55-86 | `PINMMR_OFFSET(n)` equals the enumerated PINMMRn offset for each of the 31 registers |
| K5Iomm.PinmmrDistinct | arch/arm/src/k5-j721e/hardware/k5_j721e_iomm.h:102 | different register indexes below 256 give different PINMMR addresses |
| K5Iomm.PinmmrNotKick | arch/arm/src/k5-j721e/hardware/k5_j721e_iomm.h:92-93 | no PINMMR address is a kicker register address |
| K5Iomm.PinShiftAligned | arch/arm/src/k5-j721e/hardware/k5_j721e_iomm.h:180 | a pin's field shift is 0, 8, 16 or 24 |
| K5Iomm.PinIndexRoundTrip | arch/arm/src/k5-j721e/hardware/k5_j721e_iomm.h:179-180 | register index and field position give back the pin number: `REGNDX(n)*4 + PINSHIFT(n)/8 == n` |
| K5Iomm.PinMasksDisjoint | arch/arm/src/k5-j721e/hardware/k5_j721e_iomm.h:180-181 | two different pins in the same register have disjoint masks |
| K5Iomm.PinMasksCover | arch/arm/src/k5-j721e/hardware/k5_j721e_iomm.h:180-181 | the masks of the four pins of a register cover all 32 bits |
| K5Iomm.PinValueInMask | arch/arm/src/k5-j721e/hardware/k5_j721e_iomm.h:181-182 | `PINVALUE(n, v)` for a byte v lies inside `PINMASK(n)` |
| K5Iomm.RegNdxBound | arch/arm/src/k5-j721e/hardware/k5_j721e_iomm.h:174-179 | the 124 pins fall in PINMMR0..PINMMR30 |
| K5Pinmux.PinMultiplex | arch/arm/src/k5-j721e/k5_j721e_clockconfig.c:390-400 | one read-modify-write store of the entry's PINMMR register, with the register map left as `Apply` says |
| K5Pinmux.FieldValueInMask | arch/arm/src/k5-j721e/k5_j721e_clockconfig.c:397-398 | the shifted byte lies inside the field's mask |
| K5Pinmux.SetFieldSets | arch/arm/src/k5-j721e/k5_j721e_clockconfig.c:395-399 | after pin_multiplex the 8-bit field at `shift` holds `value` |
| K5Pinmux.SetFieldKeeps | arch/arm/src/k5-j721e/k5_j721e_clockconfig.c:395-399 | pin_multiplex leaves every bit outside `0xff << shift` unchanged |
| K5Pinmux.ApplyOnlyTarget | arch/arm/src/k5-j721e/k5_j721e_clockconfig.c:395-399 | pin_multiplex changes no register but the entry's PINMMR |
| K5Pinmux.ApplyIdempotent | arch/arm/src/k5-j721e/k5_j721e_clockconfig.c:395-399 | applying the same entry twice leaves the same registers as applying it once |
| K5Pinmux.SetFieldTwice | arch/arm/src/k5-j721e/k5_j721e_clockconfig.c:395-399 | the register value pin_multiplex computes is idempotent |
| K5Pinmux.ApplyAllStep | arch/arm/src/k5-j721e/k5_j721e_clockconfig.c:421-424 | one more table entry is one more pin_multiplex and one more store, at the end |
| K5Pinmux.IoMultiplex | arch/arm/src/k5-j721e/k5_j721e_clockconfig.c:409-430 | io_multiplex leaves the registers unlocked, table-applied in index order, relocked, and makes exactly the stores `MuxLog` lists |
| K5Pinmux.MuxTable | arch/arm/src/k5-j721e/k5_j721e_clockconfig.c:421-424 | the table loop applies the entries in index order and makes one store per entry |
| K5Pinmux.FieldWritesTargets | arch/arm/src/k5-j721e/k5_j721e_clockconfig.c:421-424 | the k-th store of the table loop goes to the PINMMR register of entry k |
| K5Pinmux.MuxLogBracketed | arch/arm/src/k5-j721e/k5_j721e_clockconfig.c:416-429 | KICK0 and KICK1 unlock keys are the first two stores and the lock values the last two; every store between goes to a PINMMR register, never a kicker |
| K5Pinmux.LastFor | arch/arm/src/k5-j721e/k5_j721e_clockconfig.c:421-424 | the index of the last table entry targeting a field, or -1 when none does |
| K5Pinmux.AlignedMasksDisjoint | arch/arm/src/k5-j721e/k5_j721e_clockconfig.c:397 | fields at different byte-aligned shifts do not overlap |
| K5Pinmux.ApplyOtherRegister | arch/arm/src/k5-j721e/k5_j721e_clockconfig.c:395-399 | an entry leaves every field of another PINMMR register unchanged |
| K5Pinmux.ApplyOtherField | arch/arm/src/k5-j721e/k5_j721e_clockconfig.c:395-399 | an entry leaves the other aligned fields of its own register unchanged |
| K5Pinmux.ApplyField | arch/arm/src/k5-j721e/k5_j721e_clockconfig.c:395-399 | one entry sets its own field to its value and leaves every other aligned field unchanged |
| K5Pinmux.LastEntryWins | arch/arm/src/k5-j721e/k5_j721e_clockconfig.c:421-424 | after the loop each aligned field holds the value of the last entry targeting it, or its old value when no entry does |
| K5Gio.ConfigGio | arch/arm/src/k5-j721e/k5_j721e_gio.c:107-220 | configgio leaves the register file as `Configure` computes, with PULLDOWN's second update on DIR as written, and returns OK |
| K5Gio.ForceInputStep | arch/arm/src/k5-j721e/k5_j721e_gio.c:122-129 | clears the pin's DIR bit, then stores the pin's bit to ENACLR and LVLCLR |
| K5Gio.PullStep | arch/arm/src/k5-j721e/k5_j721e_gio.c:135-179 | the pull switch as written |
| K5Gio.OutputStep | arch/arm/src/k5-j721e/k5_j721e_gio.c:183-215 | open drain, initial level, then the DIR bit, for an output pin |
| K5Gio.GioWrite | arch/arm/src/k5-j721e/k5_j721e_gio.c:229-242 | giowrite makes one store, of pinmask, to DSET when value is true and to DCLR otherwise |
| K5Gio.GioRead | arch/arm/src/k5-j721e/k5_j721e_gio.c:251-268 | gioread returns whether the pin's bit is set in DOUT for an output pin, in DIN otherwise, and changes nothing |
| K5GioProps.ForceInputOutside | arch/arm/src/k5-j721e/k5_j721e_gio.c:122-129 | the first phase changes no other pin's bits in the port registers |
| K5GioProps.PullSetupOutside | arch/arm/src/k5-j721e/k5_j721e_gio.c:135-179 | the pull phase changes no other pin's bits in the port registers |
| K5GioProps.OutputSetupOutside | arch/arm/src/k5-j721e/k5_j721e_gio.c:183-215 | the output phase changes no other pin's bits in the port registers |
| K5GioProps.ConfigOnlyPinBits | arch/arm/src/k5-j721e/k5_j721e_gio.c:122-214 | for DIR, PULDIS, PSL and PDR, configgio leaves every bit outside the pinmask unchanged |
| K5GioProps.ForceInputGrows | arch/arm/src/k5-j721e/k5_j721e_gio.c:122-129 | the first phase only appends stores to this pin's port registers or to ENACLR/LVLCLR, and changes no other register |
| K5GioProps.PullSetupGrows | arch/arm/src/k5-j721e/k5_j721e_gio.c:135-179 | the pull phase only appends stores to this pin's port registers |
| K5GioProps.OutputSetupGrows | arch/arm/src/k5-j721e/k5_j721e_gio.c:183-215 | the output phase only appends stores to this pin's port registers |
| K5GioProps.ConfigFrame | arch/arm/src/k5-j721e/k5_j721e_gio.c:107-220 | configgio writes no register outside this pin's port and ENACLR/LVLCLR, and only appends to the store log |
| K5GioProps.ForceInputLog | arch/arm/src/k5-j721e/k5_j721e_gio.c:122-129 | the first three stores: DIR with the pin's bit cleared, then the pin's bits to ENACLR and LVLCLR |
| K5GioProps.ConfigStartsByForcingInput | arch/arm/src/k5-j721e/k5_j721e_gio.c:122-129 | configgio's first three stores are the DIR clear, ENACLR and LVLCLR, whatever the pin's mode |
| K5GioProps.OutputSetupKeepsPull | arch/arm/src/k5-j721e/k5_j721e_gio.c:183-215 | the output phase leaves PSL and PULDIS as they were |
| K5GioProps.PullSetupBits | arch/arm/src/k5-j721e/k5_j721e_gio.c:135-179 | DEFAULT clears the PULDIS bit; PULLUP sets the PSL and PULDIS bits; PULLDOWN sets the PSL bit |
| K5GioProps.ConfigSelectsPull | arch/arm/src/k5-j721e/k5_j721e_gio.c:135-215 | the pull bits survive the rest of configgio, so they hold when it returns |
| K5GioProps.OutputSetupLog | arch/arm/src/k5-j721e/k5_j721e_gio.c:183-215 | the output phase makes three stores; the second is pinmask to DSET when GIO_OUTPUT_SET, else to DCLR; the last is to DIR |
| K5GioProps.OutputSetupDir | arch/arm/src/k5-j721e/k5_j721e_gio.c:212-214 | the output phase sets the pin's DIR bit |
| K5GioProps.OutputSetupPdr | arch/arm/src/k5-j721e/k5_j721e_gio.c:187-197 | the pin's PDR bit is set exactly when GIO_OPENDRAIN |
| K5GioProps.ConfigOutputPin | arch/arm/src/k5-j721e/k5_j721e_gio.c:183-215 | an output pin ends with its DIR bit set and its PDR bit equal to GIO_OPENDRAIN; the last two stores are the level store to DSET/DCLR and the DIR update |
| K5GioProps.ConfigInputPin | arch/arm/src/k5-j721e/k5_j721e_gio.c:122-183 | an input pin whose pull-down does not go to DIR ends with its DIR bit clear, and configgio stores nothing to its PDR, DSET or DCLR |
| K5GioProps.PullSetupDirect | arch/arm/src/k5-j721e/k5_j721e_gio.c:135-179 | the pull phase stores only to PSL, PULDIS and the pull-down register, and leaves DIR alone unless PULLDOWN targets it |
| K5GioProps.PullSetupLog | arch/arm/src/k5-j721e/k5_j721e_gio.c:135-179 | the pull phase only appends stores, each to PSL, PULDIS or the pull-down register |
| K5GioProps.PullSetupKeepsDir | arch/arm/src/k5-j721e/k5_j721e_gio.c:135-179 | the pull phase leaves DIR unchanged unless PULLDOWN's second update targets it |
| K5GioProps.PullDownInputDrivesPin | arch/arm/src/k5-j721e/k5_j721e_gio.c:164-177 | as written, an input pin configured PULLDOWN ends with its DIR bit set (driven as an output) and its PULDIS untouched |
| K5GioProps.InputStaysInput | arch/arm/src/k5-j721e/k5_j721e_gio.c:164-177 | with PULLDOWN's second update on PULDIS, every input pin ends with DIR clear, and a pull-down pin with its PULDIS bit set |
| K5GioIrq.Int32Of | arch/arm/src/k5-j721e/k5_j721e_gioirq.c:58-67 | a uint32 stored into an int keeps its value modulo 2^32 and lies in the int range |
| K5GioIrq.Irq2 | arch/arm/src/k5-j721e/k5_j721e_gioirq.c:67 | for OFF1 values 1..32 the dispatched IRQ is `off1 + K5_J721E_IRQ_GIOA0 - 1` |
| K5GioIrq.Pending | arch/arm/src/k5-j721e/k5_j721e_gioirq.c:63 | the number of OFF1 values read before the first GIO_OFF_NONE: all of them differ from it, and the next one equals it |
| K5GioIrq.DispatchesInOrder | arch/arm/src/k5-j721e/k5_j721e_gioirq.c:63-72 | the handler dispatches once per OFF1 value read before GIO_OFF_NONE, the k-th dispatch being the k-th value's IRQ |
| K5GioIrq.GioInterrupt | arch/arm/src/k5-j721e/k5_j721e_gioirq.c:56-75 | the handler's loop dispatches exactly `Dispatches` and returns OK |
| K5GioIrq.DispatchedIsGioIrq | arch/arm/include/k5-j721e/irq.h:95-131 | every OFF1 value 1..32 dispatches a GIO IRQ number, at offset off1-1 from K5_J721E_IRQ_GIOA0 |
| K5GioIrq.IrqOffsetRoundTrip | arch/arm/src/k5-j721e/k5_j721e_gioirq.c:201-208 | `port*8 + pin == offset`, pin in 0..7, and port in 0..3 for an offset in 0..31 |
| K5GioIrq.IrqOffsetInjective | arch/arm/src/k5-j721e/k5_j721e_gioirq.c:201-208 | different offsets give different (port, pin) pairs |
| K5GioIrq.GioIrqEnable | arch/arm/src/k5-j721e/k5_j721e_gioirq.c:195-213 | gioirqenable makes the store `PinIrqWrite(irq, ENASET)` computes, or none |
| K5GioIrq.GioIrqDisable | arch/arm/src/k5-j721e/k5_j721e_gioirq.c:223-241 | gioirqdisable makes the store `PinIrqWrite(irq, ENACLR)` computes, or none |
| K5GioIrq.PinIrqGuard | arch/arm/src/k5-j721e/k5_j721e_gioirq.c:201-212 | a store happens exactly when the offset is below K5_J721E_NGIO_IRQS, goes to the chosen register, and its port and pin give back the offset |
| K5GioIrq.EnableDisableSameBit | arch/arm/src/k5-j721e/k5_j721e_gioirq.c:202-212 | enable and disable store the same port/pin bit, to ENASET and ENACLR |
| K5GioIrq.DispatchEnableRoundTrip | arch/arm/src/k5-j721e/k5_j721e_gioirq.c:63-72 | enabling the IRQ the handler dispatches for OFF1 value `off1` stores the bit of port `(off1-1)/8`, pin `(off1-1)%8` |
| K5GioIrq.NegativeOffsetPasses | arch/arm/src/k5-j721e/k5_j721e_gioirq.c:201-202 | as written, an IRQ number below K5_J721E_IRQ_GIOA0 passes the guard and stores a bit for a negative port |
| K5GioIrq.CheckedGuard | arch/arm/src/k5-j721e/k5_j721e_gioirq.c:201-202 | with the lower bound checked, a store happens exactly for the 32 GIO IRQs, with port 0..3 and pin 0..7, and agrees with the unchecked guard there |
| K5GioIrq.GioIrq | arch/arm/src/k5-j721e/k5_j721e_gioirq.c:113-185 | gioirq leaves the register file as `IrqSetup` computes |
| K5GioIrq.EdgeStep | arch/arm/src/k5-j721e/k5_j721e_gioirq.c:134-181 | the edge switch leaves the register file as `EdgeSetup` computes |
| K5GioIrq.EdgeSetupAppends | arch/arm/src/k5-j721e/k5_j721e_gioirq.c:134-181 | edge setup only appends stores, all to POL and INTDET, and changes no other register |
| K5GioIrq.IrqSetupStartsDisabled | arch/arm/src/k5-j721e/k5_j721e_gioirq.c:124-125 | gioirq's first two stores are the pin's bit to ENACLR and to LVLCLR |
| K5GioIrq.EdgeSettings | arch/arm/src/k5-j721e/k5_j721e_gioirq.c:131-181 | for an input pin on an interrupt port: RISING sets POL and clears INTDET; FALLING clears both; BOTHEDGES sets INTDET |
| K5GioIrq.NoEdgeNoChange | arch/arm/src/k5-j721e/k5_j721e_gioirq.c:131-139 | with GIO_INT_NONE, an output pin or a port past K5_J721E_NIRQPORTS, only the two clears are made and POL and INTDET keep their values |
| K5GioIrq.EdgeSetupOnlyPinBits | arch/arm/src/k5-j721e/k5_j721e_gioirq.c:140-178 | edge setup changes no bit of POL or INTDET outside the pin's bit |
| K5GioIrq.GioIrqInitialize | arch/arm/src/k5-j721e/k5_j721e_gioirq.c:90-103 | initialize leaves the register file as `IrqInitialize` computes |
| K5GioIrq.AllPinsCovers | arch/arm/src/k5-j721e/k5_j721e_gioirq.c:96-97 | 0xffffffff contains every pin bit |
| K5GioIrq.InitializeClearsEveryPin | arch/arm/src/k5-j721e/k5_j721e_gioirq.c:96-97 | initialize stores 0xffffffff to ENACLR and then LVLCLR, covering the bit of every port and pin |
| Vs1053Feed.DrainCheck | drivers/audio/vs1053.c:982-1024 | the threshold checks keep the device invariant, leave end mode only by breaking the loop, and change nothing below 32*65 |
| Vs1053Feed.FillStep | drivers/audio/vs1053.c:961-1025 | one end-mode iteration keeps the device invariant and stays in end mode unless it breaks the loop |
| Vs1053Feed.CancelCheck | drivers/audio/vs1053.c:1060-1078 | the cancel poll keeps the invariant and the active buffer, and does not change end mode |
| Vs1053Feed.LoadEndFill | drivers/audio/vs1053.c:1083-1098 | exhausting the final, short buffer enters end mode and keeps the active buffer |
| Vs1053Feed.NextBuffer | drivers/audio/vs1053.c:1119-1158 | freeing and popping keeps the invariant, and an iteration that does not break has an active buffer |
| Vs1053Feed.EndOfBuffer | drivers/audio/vs1053.c:1083-1158 | the end-of-buffer step keeps the invariant and leaves the engine ready for another iteration unless it breaks |
| Vs1053Feed.Transmit | drivers/audio/vs1053.c:1034-1052 | sending a block keeps the invariant (cursor within the data) and keeps the active buffer |
| Vs1053Feed.DataStep | drivers/audio/vs1053.c:1034-1158 | one data-mode iteration keeps the invariant and leaves the engine ready for another iteration unless it breaks |
| Vs1053Feed.Step | drivers/audio/vs1053.c:961-1158 | one loop iteration keeps the invariant and leaves the engine ready for another iteration unless it breaks |
| Vs1053Feed.Pump | drivers/audio/vs1053.c:957-1160 | the DREQ loop keeps the invariant, consumes no message, only appends to the log, and leaves the pause, queue-open and cancel flags alone |
| Vs1053Feed.Feed | drivers/audio/vs1053.c:914-1167 | feeddata keeps the invariant, consumes no message, only appends to the log, and leaves the pause, queue-open and cancel flags alone |
| Vs1053Feed.WaitDreq | drivers/audio/vs1053.c:1251-1256 | the post-priming DREQ poll touches nothing but DREQ readings |
| Vs1053Feed.HandleMsg | drivers/audio/vs1053.c:1285-1326 | handling one message keeps the invariant, consumes no further message and only appends to the log |
| Vs1053Feed.WorkLoop | drivers/audio/vs1053.c:1262-1327 | the message loop keeps the invariant and only appends to the log |
| Vs1053FeedProps.QuietProjections | drivers/audio/vs1053.c:914-1167 | a stretch of log with no audio, fill or report events sends, fills, dequeues and completes nothing |
| Vs1053FeedProps.AccountsTrans | drivers/audio/vs1053.c:957-1160 | byte and buffer accounting composes over consecutive loop iterations |
| Vs1053FeedProps.LoadEndFillAccounts | drivers/audio/vs1053.c:1083-1098 | entering end mode sends, drops and reports nothing |
| Vs1053FeedProps.CancelCheckAccounts | drivers/audio/vs1053.c:1060-1078 | the cancel poll sends nothing; what it drops is the rest of the active buffer, which is then empty (`curbyte == nbytes == 0`) |
| Vs1053FeedProps.NextBufferRefused | drivers/audio/vs1053.c:1130-1142 | a refused queue lock after freeing the buffer still accounts for every byte and buffer |
| Vs1053FeedProps.NextBufferEmptied | drivers/audio/vs1053.c:1119-1158 | with an empty queue: free, DEQUEUE, and no active buffer |
| Vs1053FeedProps.NextBufferLast | drivers/audio/vs1053.c:1119-1158 | exhausting the last buffer accounts for every byte and buffer |
| Vs1053FeedProps.NextBufferPopped | drivers/audio/vs1053.c:1119-1158 | with a queued buffer: free and DEQUEUE the old one, then reference the head, which becomes active, and the queue loses its head |
| Vs1053FeedProps.NextBufferPop | drivers/audio/vs1053.c:1119-1158 | popping the next buffer accounts for every byte and buffer |
| Vs1053FeedProps.NextBufferAccounts | drivers/audio/vs1053.c:1119-1158 | freeing an exhausted buffer and popping the next sends and drops nothing, and reports exactly the buffers that left |
| Vs1053FeedProps.EndOfBufferAccounts | drivers/audio/vs1053.c:1083-1158 | the end-of-buffer step accounts for everything, and a short final buffer in cancel mode enters end mode |
| Vs1053FeedProps.SendBlockAccounts | drivers/audio/vs1053.c:1034-1052 | the block sent is exactly the next part of what was pending |
| Vs1053FeedProps.DataStepAccounts | drivers/audio/vs1053.c:1034-1158 | a data-mode iteration sends a prefix of the pending audio; it drops bytes only in cancel mode, and only by entering end mode |
| Vs1053FeedProps.CancelPathAccounts | drivers/audio/vs1053.c:1060-1114 | the cancel path drops bytes only when it enters end mode |
| Vs1053FeedProps.DrainDoneQuiet | drivers/audio/vs1053.c:1010-1022 | finishing the drain sends, fills and reports nothing |
| Vs1053FeedProps.DrainCheckQuiet | drivers/audio/vs1053.c:982-1024 | the threshold checks send, fill and report nothing and leave buffers, queue and counter alone |
| Vs1053FeedProps.FillStepAccounts | drivers/audio/vs1053.c:961-1025 | an end-mode iteration sends no audio and keeps every account |
| Vs1053FeedProps.FillStepCounts | drivers/audio/vs1053.c:961-1000 | each end-mode iteration sends exactly one 32-byte fill block and adds 32 to `endfillbytes` |
| Vs1053FeedProps.FillStepLog | drivers/audio/vs1053.c:961-1025 | an end-mode iteration sends one fill block and no audio, and dequeues and completes nothing |
| Vs1053FeedProps.StepAccounts | drivers/audio/vs1053.c:961-1158 | any iteration keeps the accounts; dropped bytes imply end mode |
| Vs1053FeedProps.FillsAppend | drivers/audio/vs1053.c:961-972 | fill blocks add up over consecutive stretches of log |
| Vs1053FeedProps.PumpDraining | drivers/audio/vs1053.c:957-1025 | while draining, the loop sends no audio, `endfillbytes` grows by 32 per fill block, and it sends fewer fill blocks than would pass 32*130 |
| Vs1053FeedProps.PumpAccounts | drivers/audio/vs1053.c:957-1160 | the whole DREQ loop sends a prefix of the pending audio, drops only in cancel mode, and reports dequeued buffers in FIFO order |
| Vs1053FeedProps.EmitAccounts | drivers/audio/vs1053.c:1164-1166 | bus events that carry no audio keep the accounts |
| Vs1053FeedProps.PumpThenDeselect | drivers/audio/vs1053.c:1164-1166 | the loop followed by deselect and unlock keeps the accounts |
| Vs1053FeedProps.FeedAccounts | drivers/audio/vs1053.c:914-1167 | feeddata sends a prefix of the pending audio in order, drops bytes only in cancel mode, reports dequeued buffers in FIFO order when every queue lock is granted, and completes nothing |
| Vs1053FeedProps.FeedGate | drivers/audio/vs1053.c:925-928 | feeddata logs nothing exactly when DREQ is low or the device is paused, and then leaves the device record alone |
| Vs1053FeedProps.FeedIdle | drivers/audio/vs1053.c:939-953 | with no active buffer outside end mode, feeddata only locks, selects, deselects and unlocks |
| Vs1053FeedProps.DataStepBlock | drivers/audio/vs1053.c:1034-1052 | each data iteration first sends `min(32, nbytes - curbyte)` bytes from `samp[curbyte..]`, and advances the cursor by that amount |
| Vs1053FeedProps.FillBeforeCancel | drivers/audio/vs1053.c:961-991 | below 32*65 an end-mode iteration only sends a fill block |
| Vs1053FeedProps.FillRequestsCancel | drivers/audio/vs1053.c:982-991 | at exactly 32*65 the iteration reads SCI_MODE and writes it back with SM_CANCEL set, between interrupt disable and enable |
| Vs1053FeedProps.DrainDoneLog | drivers/audio/vs1053.c:1010-1022 | finishing the drain logs exactly: DREQ interrupt off, the endFillByte address to SCI_WRAMADDR, the SCI_WRAM read, the SCI_MODE read and its write-back with SM_RESET; endfillchar becomes the high byte of the SCI_WRAM value, running and end mode are cleared, and no other device field changes |
| Vs1053FeedProps.FillPollsCancel | drivers/audio/vs1053.c:1001-1023 | between 32*65 and 32*130 the iteration logs exactly the fill block and the SCI_STATUS read, followed by the drain-done events when its SM_CANCEL bit is clear and by nothing otherwise: SM_CANCEL is not requested again and the chip is not hard-reset; the stream ends exactly when the bit is clear, and otherwise stays in end mode with the counter 32 higher |
| Vs1053FeedProps.FillHitsCeiling | drivers/audio/vs1053.c:992-999 | at 32*130 or more the iteration hard-resets the chip and clears running and end mode |
| Vs1053FeedProps.ExhaustedBuffer | drivers/audio/vs1053.c:1083-1114 | an exhausted short buffer enters end mode with `endfillbytes` 0, or 32*65+1 in cancel mode, and the fill byte from END_FILL_BYTE; in cancel mode it is not reported dequeued |
| Vs1053FeedProps.NextBufferReports | drivers/audio/vs1053.c:1119-1126 | each buffer exhausted on the normal path is reported with exactly one DEQUEUE |
| Vs1053FeedProps.CancelCheckCuts | drivers/audio/vs1053.c:1066-1076 | a SCI_MODE read with SM_CANCEL clear truncates the active buffer to `curbyte = nbytes = 0` |
| Vs1053FeedProps.LoadEndFillDev | drivers/audio/vs1053.c:1083-1098 | entering end mode sets only the fill byte, the end-mode flag and the counter |
| Vs1053FeedProps.CancelCutsBuffer | drivers/audio/vs1053.c:1060-1114 | in cancel mode, once SM_CANCEL has cleared, the buffer is truncated, end mode starts at 32*65+1, and no DEQUEUE is reported |
| Vs1053FeedProps.CancelCutLog | drivers/audio/vs1053.c:1060-1114 | the cancel path with a truncated buffer reports no DEQUEUE |
| Vs1053FeedProps.FeedCalm | drivers/audio/vs1053.c:914-1167 | feeddata reports no completion and does not close the message queue |
| Vs1053FeedProps.HandleMsgCalm | drivers/audio/vs1053.c:1285-1326 | no message handler reports completion |
| Vs1053FeedProps.WorkLoopEnds | drivers/audio/vs1053.c:1262-1327 | the message loop ends with `running` false, having reported no completion |
| Vs1053FeedProps.TeardownEnds | drivers/audio/vs1053.c:1331-1365 | teardown reports exactly one COMPLETE, last; it empties the queue when the lock is granted, frees only the active buffer and leaves none, and closes the queue |
| Vs1053FeedProps.TeardownShape | drivers/audio/vs1053.c:1331-1365 | teardown's exact log and device record: queued buffers are unlinked without being freed |
| Vs1053FeedProps.WorkLoopAccounts | drivers/audio/vs1053.c:1262-1327 | over a whole message loop that starts outside cancel mode and receives no STOP, nothing is dropped: the audio sent is the start of what was pending, in order, and with every queue lock granted the buffers are reported in FIFO order |
| Vs1053FeedProps.WorkerAccounts | drivers/audio/vs1053.c:1229-1327 | a worker whose loop receives no STOP accounts for every byte up to its teardown, from the state with the stream flags reset: audio sent in order, nothing dropped, FIFO reports under granted locks |
| Vs1053FeedProps.WorkerEnds | drivers/audio/vs1053.c:1229-1370 | the worker thread ends not running, with no active buffer, the queue closed, exactly one COMPLETE as its last report, and an empty queue when every lock is granted |
| Vs1053Control.EnqueueAppends | drivers/audio/vs1053.c:1577-1608 | a granted enqueue rewinds the buffer and appends it at the tail, and posts ENQUEUE exactly when the queue is open; a refused one returns the error and changes nothing |
| Vs1053Control.IdsAppend | drivers/audio/vs1053.c:1592-1594 | appending a buffer appends its id to the queue order |
| Vs1053Control.EnqueueKeepsInv | drivers/audio/vs1053.c:1588-1596 | enqueueing a well-formed buffer keeps the device invariant |
| Vs1053Control.StartPopTakesHead | drivers/audio/vs1053.c:1430-1442 | the first pop makes the head active, removes exactly it, and references it, NULL included |
| Vs1053Control.StartPopKeepsInv | drivers/audio/vs1053.c:1430-1442 | the first pop keeps the device invariant |
| Vs1053Control.StartSemFailureReportsOk | drivers/audio/vs1053.c:1432 | as written, start returns OK after a refused queue lock without popping anything |
| Vs1053Control.StartIntendedStatus | drivers/audio/vs1053.c:1421-1468 | with the status stored correctly, start returns OK exactly when the queue opened, the lock was granted and the worker was created; a refused lock returns the error; a failed open returns -ENOMEM and leaves the message queue closed, with the buffers and the log untouched |
| Vs1053Control.StartFailedOpenClosesQueue | drivers/audio/vs1053.c:1421-1428 | a failed mq_open stores NULL as the queue handle: start returns -ENOMEM, the message queue is closed whatever an earlier start left open, the buffers and the log are untouched, and a following enqueue posts no ENQUEUE |
| Vs1053Control.IsrPostsOnlyWhenRunning | drivers/audio/vs1053.c:1208-1217 | the DREQ interrupt posts DATA_REQUEST exactly when running and changes nothing else |
| Vs1053Control.PauseSilencesFeed | drivers/audio/vs1053.c:1526-1564 | after pause, feeddata does nothing; resume clears the pause and ends by enabling the interrupt; neither touches a device that is not running |
| Vs1053Levels.LogApprox | drivers/audio/vs1053.c:436-446 | the attenuation is at most 254, 0 from 100 percent up, and otherwise between the two table entries around the percentage |
| Vs1053Levels.TableStep | drivers/audio/vs1053.c:224-237 | the log table never increases from one entry to the next |
| Vs1053Levels.TableBound | drivers/audio/vs1053.c:224-237 | every table entry is at most 254 |
| Vs1053Levels.LogTableDescends | drivers/audio/vs1053.c:224-237 | the table is non-increasing over any span |
| Vs1053Levels.LogApproxAntitone | drivers/audio/vs1053.c:436-446 | a larger percentage never gives more attenuation |
| Vs1053Levels.LogApproxOnGrid | drivers/audio/vs1053.c:436-446 | an even percentage below 100 gives exactly its table entry |
| Vs1053Levels.CDiv | drivers/audio/vs1053.c:481 | C division truncates toward zero |
| Vs1053Levels.U32 | drivers/audio/vs1053.c:458-459 | conversion to uint32_t keeps in-range values and wraps the rest |
| Vs1053Levels.ClampBalance | drivers/audio/vs1053.c:464-467 | balance is clamped to 1000, and a balance already in range is kept |
| Vs1053Levels.VolumeWord | drivers/audio/vs1053.c:507-513 | the SCI_VOL word fits in 16 bits |
| Vs1053Levels.PackBytes | drivers/audio/vs1053.c:513 | high and low bytes can be read back from the packed word |
| Vs1053Levels.VolumeWordFields | drivers/audio/vs1053.c:507-513 | the high byte is the left attenuation and the low byte the right one |
| Vs1053Levels.ScaledLevel | drivers/audio/vs1053.c:479-497 | a channel scaled by balance lies between 0 and the volume |
| Vs1053Levels.ChannelLevels | drivers/audio/vs1053.c:471-498 | neither channel exceeds the volume; the left is full up to centre and 0 at 1000; the right is full from centre up and 0 at 0 |
| Vs1053Levels.BalanceMirror | drivers/audio/vs1053.c:471-498 | the left level at balance b equals the right level at 1000 - b |
| Vs1053Levels.LouderVolume | drivers/audio/vs1053.c:455-515 | raising the volume never raises either channel's attenuation |
| Vs1053Levels.ScaledMono | drivers/audio/vs1053.c:479-497 | balance scaling is monotone in the volume |
| Vs1053Levels.LevelMonotone | drivers/audio/vs1053.c:471-498 | raising the volume never lowers either channel level |
| Vs1053Levels.OutOfRangeVolumeIsFull | drivers/audio/vs1053.c:455-515 | a volume outside 0..999 at centre balance gives no attenuation at all |
| Vs1053Levels.Boost | drivers/audio/vs1053.c:535-538 | a boost for 0..100 percent is at most 15 |
| Vs1053Levels.ToneWordFields | drivers/audio/vs1053.c:543-544 | the four nibbles of SCI_BASS are treble boost, 15, bass boost, 15 |
| Vs1053Levels.BassWordFields | drivers/audio/vs1053.c:535-544 | the treble and bass boost nibbles of SCI_BASS are `15*level/100` |
| Vs1053Levels.NarrowBoost | drivers/audio/vs1053.c:535-538 | a boost survives the narrowing to the 16-bit register word |
| Vs1053Driver.Vs1053.ReadDreq | drivers/audio/vs1053.c:925 | reads the next DREQ level |
| Vs1053Driver.Vs1053.SciRead | drivers/audio/vs1053.c:285-309 | reads the next SCI register value and logs the read |
| Vs1053Driver.Vs1053.SemWait | drivers/audio/vs1053.c:1130 | takes the next queue-lock outcome |
| Vs1053Driver.Vs1053.FeedData | drivers/audio/vs1053.c:914-1167 | the in-place feeddata computes `Feed` |
| Vs1053Driver.Vs1053.FillBlock | drivers/audio/vs1053.c:961-1025 | one end-mode iteration computes `FillStep` |
| Vs1053Driver.Vs1053.CheckDrain | drivers/audio/vs1053.c:982-1024 | the threshold checks compute `DrainCheck` |
| Vs1053Driver.Vs1053.FinishDrain | drivers/audio/vs1053.c:1010-1022 | the drain acknowledgement computes `DrainDone` |
| Vs1053Driver.Vs1053.DataBlock | drivers/audio/vs1053.c:1034-1158 | one data-mode iteration computes `DataStep` |
| Vs1053Driver.Vs1053.TransmitBlock | drivers/audio/vs1053.c:1034-1052 | sending a block computes `Transmit` |
| Vs1053Driver.Vs1053.CancelPoll | drivers/audio/vs1053.c:1060-1078 | the cancel poll computes `CancelCheck` |
| Vs1053Driver.Vs1053.FinishBuffer | drivers/audio/vs1053.c:1083-1158 | the end-of-buffer step computes `EndOfBuffer` |
| Vs1053Driver.Vs1053.LoadFill | drivers/audio/vs1053.c:1083-1098 | entering end mode computes `LoadEndFill` |
| Vs1053Driver.Vs1053.PopNext | drivers/audio/vs1053.c:1119-1158 | free, report and pop compute `NextBuffer` |
| Vs1053Driver.Vs1053.WorkerThread | drivers/audio/vs1053.c:1229-1370 | the worker thread computes `Worker` |
| Vs1053Driver.Vs1053.Prime | drivers/audio/vs1053.c:1241-1256 | reset the stream flags, fill the FIFO and wait for DREQ |
| Vs1053Driver.Vs1053.ResetStream | drivers/audio/vs1053.c:1241-1243 | clears cancel mode, end mode and the drain counter |
| Vs1053Driver.Vs1053.AwaitDreq | drivers/audio/vs1053.c:1251-1256 | the bounded DREQ poll computes `WaitDreq` |
| Vs1053Driver.Vs1053.MessageLoop | drivers/audio/vs1053.c:1262-1327 | the message loop computes `WorkLoop` |
| Vs1053Driver.Vs1053.Receive | drivers/audio/vs1053.c:1262-1327 | one pass of the loop: it stops with `WorkLoop`'s result or leaves `WorkLoop`'s result unchanged with one message fewer |
| Vs1053Driver.Vs1053.PollFeed | drivers/audio/vs1053.c:1264-1267 | feeds once when DREQ is high |
| Vs1053Driver.Vs1053.Handle | drivers/audio/vs1053.c:1285-1326 | one message handler computes `HandleMsg` |
| Vs1053Driver.Vs1053.Stop | drivers/audio/vs1053.c:1297-1316 | AUDIO_MSG_STOP sets SM_CANCEL and enters cancel mode |
| Vs1053Driver.Vs1053.Shutdown | drivers/audio/vs1053.c:1331-1365 | the teardown computes `Teardown` |
| Vs1053Driver.Vs1053.UnlinkQueued | drivers/audio/vs1053.c:1331-1343 | under the lock, the queue is emptied |
| Vs1053Driver.Vs1053.ReleaseActive | drivers/audio/vs1053.c:1347-1351 | the active buffer, if any, is freed and dropped |
| Vs1053Driver.Vs1053.DropQueue | drivers/audio/vs1053.c:1339-1340 | unlinks every queued buffer |
| Vs1053Driver.Vs1053.EnqueueBuffer | drivers/audio/vs1053.c:1577-1608 | enqueuebuffer computes `Enqueue` |
| Vs1053Driver.Vs1053.StartPlayback | drivers/audio/vs1053.c:1383-1469 | start, as written, computes `Start`: a failed mq_open closes the message queue and returns -ENOMEM, and a refused lock returns OK |
| Vs1053Driver.Vs1053.PopQueue | drivers/audio/vs1053.c:1430-1442 | the first pop computes `StartPop` |
| Vs1053Driver.Vs1053.Isr | drivers/audio/vs1053.c:1179-1219 | the DREQ interrupt computes `DreqIsr` and returns 0 |
| Vs1053Driver.Vs1053.PausePlayback | drivers/audio/vs1053.c:1526-1537 | pause computes `Pause` and returns OK |
| Vs1053Driver.Vs1053.ResumePlayback | drivers/audio/vs1053.c:1552-1565 | resume computes `Resume` and returns OK |
| Vs1053Driver.Vs1053.SetVolume | drivers/audio/vs1053.c:455-515 | clamps the balance in place and writes `VolumeWord` to SCI_VOL under the bus lock |
| Vs1053Driver.Vs1053.SetBass | drivers/audio/vs1053.c:527-546 | writes `BassWord` to SCI_BASS under the bus lock |

## Left out

- SPI and OS plumbing in vs1053.c is not modelled as such. `SPI_LOCK`/`SELECT`/`SEND`/`SNDBLOCK`, `mq_*`, `pthread_*`, `sem_wait`/`sem_post` and the DREQ interrupt enable/disable are log events or oracle inputs. `sem_post` and `usleep`/`up_mdelay` leave no trace because they change no modelled state.
- The 32 `SPI_SEND(endfillchar)` calls of one fill iteration are one `SendFill` event.
- The SPI bus-frequency changes inside the bus lock, and `vs1053_setfrequency`: floating point and a DREQ poll.
- The soft/hard reset routines: their timing loops are the single `HardReset` event.
- `vs1053_getcaps`, `vs1053_configure`, `vs1053_initialize`, `vs1053_reserve`, `vs1053_release`, `vs1053_ioctl`, `vs1053_cancelbuffer` and `vs1053_shutdown`: capability tables, allocation and hardware detection, with no streaming logic.
- Vs1053Control.StartWith: models `vs1053_start` from `mq_open` to `pthread_create`. The HDAT debug reads, the soft reset and the clock setup before it are left out, and so is the join of an earlier worker thread. Their effect is timing and chip state outside the device record.
- `vs1053_stop`: it only posts AUDIO_MSG_STOP and joins the worker. The worker's handling of that message is modelled as `StopStep`.
- The ISR lookup table `g_isrdata`, and real concurrency between the ISR, the worker and callers. The messages the worker receives are an input sequence. A buffer that `vs1053_enqueuebuffer` appends while the worker runs is not modelled: `Worker` and `WorkLoop`, and so WorkLoopEnds, WorkerEnds and WorkerAccounts, see the queue as it stood when the worker started.
- Vs1053FeedProps.WorkLoopAccounts, WorkerAccounts: byte accounting over a whole session is stated only for a session that receives no STOP. STOP turns cancel mode on in the middle of the session. Composing the per-call accounting across it would need an invariant about what may follow a cancel cut, and the model does not state one. A session with a STOP is therefore accounted only per `vs1053_feeddata` call (FeedAccounts).
- Debug-only register reads inside `auddbg`, and the AUDIO_APB_OUTPUT_ENQUEUED flag.
- Buffers are values identified by an `id`. The model does not capture aliasing between the queue and `pBuf`, reference counts, or the storage `apb_free` releases.
- An exhausted oracle reads as DREQ low, a register value of 0, a granted lock and an empty receive. This bounds every loop.
- The VS1053 register addresses, the SM_CANCEL/SM_RESET bits and END_FILL_BYTE come from the chip's datasheet, since the driver's header is not part of this model.
- Vs1053FeedProps.FeedAccounts: FIFO order of DEQUEUE reports is stated only when every queue lock is granted. After a refused lock the source leaves `pBuf` pointing at the freed buffer, so the next feed reports it a second time.
- Vs1053Levels.LogApprox: the contract bounds the result between the two neighbouring table entries rather than restating the floored mean, which is its body. The exact value on even percentages is `LogApproxOnGrid`.
- Vs1053Driver.Vs1053.ReadDreq, SciRead and SemWait state what they consume from the oracles, not any hardware timing.
- GIO and interrupt register hardware semantics are not modelled:
  - a register holds the last value stored;
  - write-1-to-set/clear registers (DSET, DCLR, ENASET, ENACLR, LVLSET, LVLCLR) are not folded into the registers they act on;
  - a register the model holds no value for reads as 0.
- The GIO register offsets, the pinset decoders, the `GIO_*_PORT_PIN` macros, K5_J721E_NIRQPORTS and GIO_OFF_NONE are defined in headers that are not part of this model. Registers are named rather than numbered, and the macros are parameters.
- K5GioIrq.GioIrqEnable, GioIrqDisable: `irq - K5_J721E_IRQ_GIOA0` is computed on unbounded integers. `int` overflow for IRQ numbers near INT_MIN is not modelled.
- `k5_j721e_dumpgio`: debug printing.
- `k5_j721e_gio_initialize`: outside the modelled core.
- `irq_attach`/`up_enable_irq` in gioirq initialization, and `irq_dispatch` itself: the dispatched IRQ numbers are returned as a sequence.
- The PLL, LPO, clock-source, ECLK and frequency-check code of k5_j721e_clockconfig.c: straight-line register programming with spin-waits on hardware status.
- K5Pinmux.PinMultiplex and IoMultiplex require every entry's shift to be below 32, because a larger shift is undefined behaviour in C.

## Findings

| source | as written | input that shows it | evidently intended | confidence | as-written member | corrected member |
|---|---|---|---|---|---|---|
| arch/arm/src/k5-j721e/k5_j721e_gio.c:170-177 | the PULLDOWN case's second read-modify-write sets the pin's bit in DIR | any input pin with GIO_CFG_PULLDOWN: configgio leaves DIR set, so the pin is driven as an output, and PULDIS is never touched | set the pin's bit in the pull-enable register (PULDIS), as PULLUP does, and leave DIR clear for an input | not executed | K5GioProps.PullDownInputDrivesPin | K5GioProps.InputStaysInput |
| drivers/audio/vs1053.c:1432 | `ret = (sem_wait(...) == OK)` stores the comparison, not the status | `sem_wait` fails: `ret` is 0, nothing is popped, no worker is created, and start returns OK | `(ret = sem_wait(...)) == OK`, so a refused lock is returned as an error | not executed | Vs1053Control.StartSemFailureReportsOk | Vs1053Control.StartIntendedStatus |
| arch/arm/src/k5-j721e/k5_j721e_gioirq.c:201-202 | `offset = irq - K5_J721E_IRQ_GIOA0` is only checked against the upper bound, here and in the same guard of gioirqdisable | `irq = 0`: the offset is -96, the guard passes, and a store is made for port -12 | also reject negative offsets | not executed | K5GioIrq.NegativeOffsetPasses | K5GioIrq.CheckedGuard |

The methods of `Vs1053Driver.Vs1053`, `K5Gio` and `K5GioIrq` keep the code as written (`StartPlayback` computes `Start`, `ConfigGio` computes `Configure(..., Dir)`, and `GioIrqEnable`/`GioIrqDisable` use the unchecked guard). The corrected definitions `StartIntended`, `Configure(..., Puldis)` and `CheckedPinIrqWrite` sit beside them, with the intended properties proved about them.
