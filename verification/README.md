# simple_can_tx core, modelled in Dafny

This project models the transmit core of `simple_can_tx`, a small Linux program.
It binds a raw CAN socket to `vcan0` and starts a tick thread.
Every 100 ms the thread assembles a frame and sends it.
The frame has identifier `0x100`, length 8, a wrapping 8-bit sequence counter in byte 0 and zeros after it.
The program stops on a send failure, a timer failure or SIGINT.

Every system call is an integer outcome passed in by the caller: `socket`, `ioctl`, `bind`, `pthread_create`, `timerfd_settime`, `read` and `send`.
What the program does to the outside world is recorded, in order, in a trace of `Call` values.
That trace covers each system call and each frame handed to the diagnostic printer.

Modules:

- `Defs` (`defs.dfy`): constants of `inc/defs.h`, plus the `uint8`/`uint32` widths and the C conversion to `uint8_t`.
- `MainState` (`main_state.dfy`): the globals `app_active`/`can_active` of `src/main.c` and `Shutdown`.
- `CanSpec` (`can_spec.dfy`): the pure specification of `src/can.c`.
  It holds the frame value, the call trace, the functions saying what the tick loop and the initialisation do for given outcomes, and the lemmas about them.
- `Can` (`can.dfy`): `src/can.c` as classes.
  - `CanFrame` is a `struct can_frame` with an 8-byte array.
  - `FrameAssembler` holds the `static` counter of `AssembleFrame`.
  - `CanDriver` holds `can_fd`, `reason_to_quit` and the trace.
  - Their methods are proved against `CanSpec`.
- `MainEntry` (`main_entry.dfy`): `terminate` and `main`.

`main.c` is split across `MainState` and `MainEntry` because `can.c` and `main.c` call each other, and Dafny modules cannot import each other in a cycle.
`CANClose` calls `Shutdown`, and `terminate` calls `CANClose`.

The model follows the code as written, including these behaviours:

- `CANIfcInit` does not close its socket when a later step fails. The socket is closed only by the `CANClose` in `CANInit`'s failure branch (`Can.CanDriver.IfcInit`, `CanSpec.InitOrdering`).
- `CANClose` has no guard against a second close. When SIGINT arrives before the tick thread starts or once it has armed its timer, `terminate` closes the socket and the exiting tick thread closes it again (`MainEntry.InterruptBeforeFirstTick`).
- `AssembleFrame` has a failure path for a null frame.
- The result of `timerfd_create` is not checked. A failed `timerfd_settime` ends the tick thread, after `CANInit` has already reported success; the thread's `CANClose` then stops `main`.
- `main` returns 0 on every path, including after an initialisation failure.
- `CANClose` does not wait for the tick thread. It only closes the descriptor and sets the flags.
- The `missed` count read from the timer is ignored (`CanSpec.MissedIgnored`).

## Model

| member | source | states |
|---|---|---|
| `Defs.Truncate8` | src/can.c:178-182 | storing a `send` result into `uint8_t size` keeps it modulo 256 and leaves 0..255 unchanged |
| `CanSpec.Next` | src/can.c:151 | the counter's post-increment adds 1 below 255 and wraps 255 to 0 |
| `CanSpec.FramesAt` | src/can.c:142-159 | the k-th of consecutive assembled frames (from counter s) has id 0x100, length 8, byte 0 = (s + k) mod 256 and bytes 1..7 zero |
| `CanSpec.SendOkInSendRange` | src/can.c:176-194 | for every value `send` can return for a 16-byte request (-1..16), the truncated size test succeeds exactly on a full 16-byte write |
| `CanSpec.ConsumedIsFirstStop` | src/can.c:79-89 | the tick loop consumes wake-ups up to and including the first one with a failed read or a failed send, and no further |
| `CanSpec.NothingAfterStop` | src/can.c:79-89 | wake-ups after the stopping one change neither the trace nor the counter: no read follows a read error and no send follows a failed send |
| `CanSpec.OneSendPerSuccessfulRead` | src/can.c:79-124 | each consumed wake-up reads the timer once, and the number of send attempts equals the number of successful reads among the consumed wake-ups |
| `CanSpec.SentFramesOfTickLoop` | src/can.c:109-159 | the frames the loop sends are the consecutive assembled frames from the entry counter, and the counter ends advanced by their number modulo 256 |
| `CanSpec.LoopPassStop` | src/can.c:81-88 | a pass over a stopping wake-up completes the loop specification: a failed read adds only the read and keeps counter and `reason_to_quit`; a failed send adds read and tick, advances the counter and sets `reason_to_quit` to 1 |
| `CanSpec.LoopPassOn` | src/can.c:79-89 | a pass over a wake-up with a successful read and a full send leaves the rest of the loop specification to the remaining wake-ups, from the advanced counter |
| `CanSpec.QuitAfterStop` | src/can.c:79-89 | when the loop ends, `reason_to_quit` is what it was on entry if the stopping wake-up was a failed read, and 1 if it was a failed send |
| `CanSpec.MissedIgnored` | src/can.c:81-88 | the `missed` count delivered by the timer changes neither the trace nor the counter |
| `CanSpec.InitOrdering` | src/can.c:262-343 | initialisation opens the socket first, looks up the interface exactly when the socket was created, binds exactly when the lookup also succeeded, on success makes socket, lookup, bind and thread creation in that order, creates the thread exactly when socket, lookup and bind succeeded, never sends, and ends with `close` of the obtained descriptor exactly when it fails |
| `CanSpec.TickPeriodIs100Ms` | src/can.c:72-76 | the timer period `100 * NS_TO_MS` is 100,000,000 ns, i.e. 100 ms, a valid `tv_nsec` value |
| `Can.CanFrame.constructor` | src/can.c:112 | an uninitialised frame: only that its data field has 8 bytes |
| `Can.FrameAssembler.constructor` | src/can.c:144 | the static counter starts at 0 |
| `Can.FrameAssembler.AssembleFrame` | src/can.c:142-159 | non-null frame: SUCCESS, id 0x100, length 8, byte 0 = old counter, bytes 1..7 zero, counter incremented mod 256; null: FAILURE, counter unchanged |
| `Can.CanDriver.constructor` | src/can.c:49-51 | process start: `can_fd` 0, `reason_to_quit` 0, counter 0, empty trace |
| `Can.CanDriver.SendFrame` | src/can.c:176-194 | non-null frame: one `send` on `can_fd`; SUCCESS exactly when the truncated count is 16; otherwise FAILURE and `reason_to_quit` = 1; null: FAILURE, no send, flag untouched |
| `Can.CanDriver.PrintCanFrame` | src/can.c:208-224 | a non-null frame is reported; null reports nothing |
| `Can.CanDriver.TickTx` | src/can.c:109-124 | one tick: assemble, send, and report only if the send succeeded; counter advances by one; `reason_to_quit` set exactly on a failed send |
| `Can.CanDriver.ReadAndTick` | src/can.c:81-88 | one loop pass: one timer read; a failed read changes nothing else; a successful one runs one `tick_tx`: counter advanced by one, the calls of one tick appended, `reason_to_quit` set to 1 exactly when the send failed |
| `Can.CanDriver.ThrTick` | src/can.c:66-95 | timer created and armed with 100 ms; the loop runs only if arming succeeded and `reason_to_quit` != 1, and then makes exactly the calls of the loop specification; `CANClose` on every exit, leaving `reason_to_quit` = 1 and `can_active` = 0 |
| `Can.CanDriver.StartTimer` | src/can.c:68-76 | the thread's set-up: one timer creation, then arming with a 100 ms period; `timer_status` is the arming result |
| `Can.CanDriver.TickUntilQuit` | src/can.c:79-92 | the loop (as `RunTicks`) followed by `CANClose` whichever way it ended: `reason_to_quit` = 1, `can_active` = 0, `app_active` kept |
| `Can.CanDriver.RunTicks` | src/can.c:79-89 | loop entered exactly when `timer_status` != -1 and `reason_to_quit` != 1; then its calls, final counter and final `reason_to_quit` are those of the loop specification, the latter kept when the loop ended on a failed read and 1 when it ended on a failed send; otherwise nothing happens, `reason_to_quit` included |
| `Can.CanDriver.ThrInit` | src/can.c:238-247 | one thread creation; SUCCESS exactly when `pthread_create` returned 0 |
| `Can.CanDriver.IfcInit` | src/can.c:262-293 | socket, lookup, bind in that order, stopping at the first failure; `can_fd` holds the socket result; SUCCESS exactly when all three succeeded |
| `Can.CanDriver.Close` | src/can.c:307-314 | closes `can_fd` unconditionally, sets `reason_to_quit` = 1, clears `can_active`, keeps `app_active`, returns SUCCESS |
| `Can.CanDriver.Init` | src/can.c:329-343 | thread created only after interface success; SUCCESS exactly when all four steps succeed; on failure `CANClose` runs (flag set, `can_active` 0) and FAILURE |
| `MainState.AppFlags.constructor` | src/main.c:32-33 | `app_active` and `can_active` both start at 1 |
| `MainState.AppFlags.Shutdown` | src/main.c:47-50 | clears `can_active` and changes nothing else |
| `MainEntry.QuietPrefixIsLeadingRun` | src/main.c:92-95 | the foreground loop's sleeps before the first stop are exactly the leading quiet ones |
| `MainEntry.Terminate` | src/main.c:63-68 | clears `app_active`, and through `CANClose` closes the socket, sets `reason_to_quit` and clears `can_active` |
| `MainEntry.RunMain` | src/main.c:82-99 | returns 0 on every path; no sleep at all when `CANInit` failed; otherwise it sleeps until the first sleep during which SIGINT or the tick thread's exit cleared a flag, and then stops |
| `MainEntry.InterruptBeforeFirstTick` | src/can.c:307-314 | SIGINT after a successful init, either before the tick thread starts or once it has armed its timer: the exact trace of each case, in which no frame is sent and the socket is closed twice |

## Left out

- Real system calls and their data (`ifreq`, `sockaddr_can`, the interface index) are not modelled. Each call is an integer outcome and a trace entry.
- A descriptor of -1 from `timerfd_create` is not tied to a failing `timerfd_settime`. The two outcomes are independent inputs because kernel behaviour is not modelled.
- Timing is not modelled: `CLOCK_REALTIME`, the actual 100 ms spacing, `usleep(ONE_SEC)`, and claims about how many frames fit in a time window.
- Threads and data races are not modelled: `pthread_create`, and the unsynchronised globals shared by the tick thread, the signal handler and `main`. Each function's sequential effect is modelled. A few coarse interleavings are modelled: events between two sleeps of `main`, and SIGINT either before the tick thread starts or between its arming of the timer and its first loop test. SIGINT between `timerfd_create` and `timerfd_settime`, or in the middle of a tick, is not modelled. Nor is SIGINT while the tick thread is blocked in `read`: the read returns at the next expiry, `tick_tx` sends on the already closed descriptor, the send fails, and `CANClose` closes the descriptor a second time.
- `signal` registration, the `printf`/`perror` messages and the text format of `PrintCANFrame` are left out. A report is a trace entry carrying the frame.
- The return value of `close` is ignored by the source and is not modelled.
- The three reserved bytes of `struct can_frame` (padding and reserved fields) are not modelled. The frame lives uninitialised on the stack in `tick_tx`, `AssembleFrame` writes only the id, the length and the data bytes, and `send` transmits all 16 bytes. So whatever was on the stack in those three bytes reaches the kernel. A `Frame` value, and so a `Transmit` trace entry, holds only id, length and data.
- Can.CanDriver.ThrTick: models only runs that end within the given wake-ups. A thread that transmits forever is outside the model, because a Dafny method must terminate.
- Can.CanDriver.TickUntilQuit: requires, like `ThrTick`, that the loop ends within the given wake-ups when it is entered, because a Dafny method must terminate.
- Can.CanDriver.RunTicks: requires, like `ThrTick`, that the loop ends within the given wake-ups when it is entered, because a Dafny method must terminate.
- MainEntry.RunMain: models only runs in which a stop arrives within the given schedule. Events before `main`'s first loop test cannot be scheduled (for example a tick thread whose `timerfd_settime` fails and which exits at once), which is why at least one sleep is promised after a successful `CANInit`. A `TickThreadExit` event applies only the thread's final `CANClose`; the thread's reads and sends are modelled by `Can.CanDriver.ThrTick`.
