/**
 * src/can.c: the frame assembler with its static sequence counter, the
 * send-result check, the tick thread, and the initialisation and close
 * sequence of the CAN socket.  Every system call is an integer outcome
 * supplied by the caller; what the transmitter does with the outside world
 * is recorded, in order, in the driver's `calls` trace.
 */
module Can {
  import opened Defs
  import opened MainState
  import opened CanSpec

  /** A `struct can_frame` in memory, filled in place by the assembler. */
  class CanFrame {
    var canId: uint32
    var canDlc: uint8
    const data: array<uint8>

    /**
     * An uninitialised frame on the stack: callers learn nothing about its
     * fields, only that the data field holds eight bytes.
     */
    constructor ()
      ensures data.Length == CAN_MAX_DLEN && fresh(data)
    {
      canId, canDlc := 0, 0;
      data := new uint8[CAN_MAX_DLEN];
    }

    /** The frame's current contents. */
    function Value(): Frame
      reads this, data
    {
      Frame(canId, canDlc, data[..])
    }
  }

  /** `AssembleFrame` and the counter declared `static` inside it. */
  class FrameAssembler {
    var sequence: uint8

    /** The counter starts at 0. */
    constructor ()
      ensures sequence == 0
    {
      sequence := 0;
    }

    /**
     * `AssembleFrame`: given a frame, writes identifier 0x100, length 8,
     * zeroes the length's worth of data bytes, stores the counter in byte
     * 0 and then increments the counter; given null, fails and changes
     * nothing.
     */
    method AssembleFrame(fra: CanFrame?) returns (status: uint8)
      requires fra != null ==> fra.data.Length == CAN_MAX_DLEN
      modifies this, fra, if fra == null then {} else {fra.data}
      ensures fra == null ==> status == FAILURE && sequence == old(sequence)
      ensures fra != null ==> status == SUCCESS && sequence == Next(old(sequence))
      ensures fra != null ==> fra.canId == 0x100 && fra.canDlc == 8
      ensures fra != null ==> fra.data[0] == old(sequence)
      ensures fra != null ==> forall i :: 1 <= i < fra.data.Length ==> fra.data[i] == 0
      ensures fra != null ==> fra.Value() == AssembledFrame(old(sequence))
    {
      if fra != null {
        fra.canId := FRAME_ID;
        fra.canDlc := FRAME_DLC;
        forall i | 0 <= i < fra.canDlc as int {
          fra.data[i] := 0;
        }
        fra.data[0] := sequence;
        sequence := Next(sequence);
        status := SUCCESS;
      } else {
        status := FAILURE;
      }
    }
  }

  /**
   * The file-level state of can.c (`can_fd`, `reason_to_quit`), the
   * assembler, and the flags of main.c that `CANClose` clears through
   * `Shutdown`.
   */
  class CanDriver {
    var canFd: int
    var reasonToQuit: uint8
    /** Every system call and report made so far, oldest first. */
    var calls: seq<Call>
    const assembler: FrameAssembler
    const flags: AppFlags

    /** Static storage at process start: everything zero. */
    constructor (flags: AppFlags)
      ensures this.flags == flags && fresh(assembler)
      ensures canFd == 0 && reasonToQuit == 0 && calls == [] && assembler.sequence == 0
    {
      canFd, reasonToQuit, calls := 0, 0, [];
      assembler := new FrameAssembler();
      this.flags := flags;
    }

    /**
     * `SendFrame`: hands the frame to `send`, whose result `sent` is stored
     * into a `uint8_t`; succeeds exactly when that equals the frame size,
     * and otherwise sets `reason_to_quit`.  Given null, fails without
     * sending or touching the flag.
     */
    method SendFrame(fra: CanFrame?, sent: int) returns (status: uint8)
      modifies this
      ensures canFd == old(canFd)
      ensures fra == null ==> status == FAILURE
      ensures fra == null ==> calls == old(calls) && reasonToQuit == old(reasonToQuit)
      ensures fra != null ==> calls == old(calls) + [Transmit(canFd, fra.Value())]
      ensures fra != null ==> (status == SUCCESS <==> SendOk(sent))
      ensures fra != null ==> (status == FAILURE <==> !SendOk(sent))
      ensures fra != null ==> reasonToQuit == if SendOk(sent) then old(reasonToQuit) else 1
    {
      if fra != null {
        calls := calls + [Transmit(canFd, fra.Value())];
        var size := Truncate8(sent);
        if size as int != CAN_FRAME_SIZE {
          reasonToQuit := 1;
          return FAILURE;
        }
        return SUCCESS;
      } else {
        return FAILURE;
      }
    }

    /** `PrintCANFrame`: reports a non-null frame to the diagnostic output. */
    method PrintCanFrame(fra: CanFrame?)
      modifies this`calls
      ensures calls == old(calls) + if fra != null then [Report(fra.Value())] else []
    {
      if fra != null {
        calls := calls + [Report(fra.Value())];
      }
    }

    /**
     * `tick_tx`: assembles one frame into a fresh stack frame, sends it,
     * and reports it only if the send succeeded.
     */
    method TickTx(sent: int)
      modifies this, assembler
      ensures calls == old(calls) + TickCalls(old(assembler.sequence), canFd, sent)
      ensures assembler.sequence == Next(old(assembler.sequence))
      ensures reasonToQuit == if SendOk(sent) then old(reasonToQuit) else 1
      ensures canFd == old(canFd)
    {
      var frame := new CanFrame();
      var status := assembler.AssembleFrame(frame);
      if status != SUCCESS {
        return;
      }
      status := SendFrame(frame, sent);
      if status != SUCCESS {
        return;
      }
      PrintCanFrame(frame);
    }

    /**
     * `Thr_Tick`, the body of the tick thread: its set-up (StartTimer)
     * followed by its loop and final `CANClose` (TickUntilQuit).  `wakes`
     * lists the outcome of each timer read and of the send that follows it;
     * the run must stop within it.
     */
    method ThrTick(timerFd: int, armResult: int, wakes: seq<Wake>)
      requires armResult == -1 || reasonToQuit == 1 || Stops(wakes)
      modifies this, assembler, flags
      ensures calls == old(calls) + [CreateTimer, ArmTimer(timerFd, TICK_PERIOD_NS)]
                       + (if armResult != -1 && old(reasonToQuit) != 1
                          then TickLoop(wakes, old(assembler.sequence), old(canFd), timerFd)
                          else [])
                       + [CloseSocket(old(canFd))]
      ensures assembler.sequence ==
                if armResult != -1 && old(reasonToQuit) != 1
                then SequenceAfter(wakes, old(assembler.sequence))
                else old(assembler.sequence)
      ensures canFd == old(canFd) && reasonToQuit == 1
      ensures flags.canActive == 0 && flags.appActive == old(flags.appActive)
    {
      var timerStatus := StartTimer(timerFd, armResult);
      TickUntilQuit(timerFd, timerStatus, wakes);
    }

    /**
     * The set-up of `Thr_Tick`: creates the timer and arms it with a
     * periodic 100 ms `itimerspec`; `timer_status` is the result of arming.
     */
    method StartTimer(timerFd: int, armResult: int) returns (timerStatus: int)
      modifies this`calls
      ensures calls == old(calls) + [CreateTimer, ArmTimer(timerFd, TICK_PERIOD_NS)]
      ensures timerStatus == armResult
    {
      calls := calls + [CreateTimer];
      calls := calls + [ArmTimer(timerFd, TICK_PERIOD_NS)];
      timerStatus := armResult;
    }

    /**
     * The loop of `Thr_Tick` and its exit: runs the loop, then calls
     * `CANClose` whichever way the loop ended.
     */
    method TickUntilQuit(timerFd: int, timerStatus0: int, wakes: seq<Wake>)
      requires timerStatus0 == -1 || reasonToQuit == 1 || Stops(wakes)
      modifies this, assembler, flags
      ensures calls == old(calls)
                       + (if timerStatus0 != -1 && old(reasonToQuit) != 1
                          then TickLoop(wakes, old(assembler.sequence), old(canFd), timerFd)
                          else [])
                       + [CloseSocket(old(canFd))]
      ensures assembler.sequence ==
                if timerStatus0 != -1 && old(reasonToQuit) != 1
                then SequenceAfter(wakes, old(assembler.sequence))
                else old(assembler.sequence)
      ensures canFd == old(canFd) && reasonToQuit == 1
      ensures flags.canActive == 0 && flags.appActive == old(flags.appActive)
    {
      RunTicks(timerFd, timerStatus0, wakes);
      var _ := Close();
    }

    /**
     * The `while` loop of `Thr_Tick`: while `timer_status` is not -1 and
     * `reason_to_quit` is not 1, reads the timer once per wake-up (leaving
     * the loop on a failed read) and runs one `tick_tx`.
     */
    method RunTicks(timerFd: int, timerStatus0: int, wakes: seq<Wake>)
      requires timerStatus0 == -1 || reasonToQuit == 1 || Stops(wakes)
      modifies this, assembler
      ensures calls == old(calls)
                       + if timerStatus0 != -1 && old(reasonToQuit) != 1
                         then TickLoop(wakes, old(assembler.sequence), old(canFd), timerFd)
                         else []
      ensures assembler.sequence ==
                if timerStatus0 != -1 && old(reasonToQuit) != 1
                then SequenceAfter(wakes, old(assembler.sequence))
                else old(assembler.sequence)
      ensures canFd == old(canFd)
      ensures reasonToQuit ==
                if timerStatus0 != -1 && old(reasonToQuit) != 1
                then QuitAfter(wakes, old(reasonToQuit))
                else old(reasonToQuit)
      ensures timerStatus0 != -1 && old(reasonToQuit) != 1 ==>
                reasonToQuit == if wakes[Consumed(wakes) - 1].read < 0 then old(reasonToQuit) else 1
    {
      var timerStatus := timerStatus0;
      ghost var entered := timerStatus != -1 && reasonToQuit != 1;
      ghost var done := calls + if entered then TickLoop(wakes, assembler.sequence, canFd, timerFd) else [];
      ghost var last := if entered then SequenceAfter(wakes, assembler.sequence) else assembler.sequence;
      ghost var quit := if entered then QuitAfter(wakes, reasonToQuit) else reasonToQuit;
      if entered {
        QuitAfterStop(wakes, reasonToQuit);
      }
      var i := 0;
      assert wakes[i..] == wakes;
      while timerStatus != -1 && reasonToQuit != 1
        invariant 0 <= i <= |wakes|
        invariant canFd == old(canFd)
        invariant !entered ==> timerStatus == timerStatus0 && reasonToQuit == old(reasonToQuit)
        invariant timerStatus != -1 && reasonToQuit != 1 ==>
                    Stops(wakes[i..])
                    && calls + TickLoop(wakes[i..], assembler.sequence, canFd, timerFd) == done
                    && SequenceAfter(wakes[i..], assembler.sequence) == last
                    && QuitAfter(wakes[i..], reasonToQuit) == quit
        invariant !(timerStatus != -1 && reasonToQuit != 1) ==>
                    calls == done && assembler.sequence == last && reasonToQuit == quit
        decreases |wakes| - i
      {
        ghost var s, c, q := assembler.sequence, calls, reasonToQuit;
        timerStatus := ReadAndTick(timerFd, wakes[i]);
        if IsStop(wakes[i]) {
          LoopPassStop(wakes[i..], s, canFd, timerFd, q);
        } else {
          LoopPassOn(wakes[i..], s, canFd, timerFd, q, c);
        }
        if timerStatus < 0 {
          break;
        }
        assert wakes[i..][1..] == wakes[i + 1..];
        i := i + 1;
      }
    }

    /**
     * One pass of the loop body of `Thr_Tick`: reads the timer (its
     * `missed` count is stored and never used), and unless the read failed
     * runs one `tick_tx`.  Stated against the loop's specification, with
     * `rest` the wake-ups that follow `w`.
     */
    method ReadAndTick(timerFd: int, w: Wake) returns (timerStatus: int)
      modifies this, assembler
      ensures timerStatus == w.read
      ensures canFd == old(canFd)
      ensures w.read < 0 ==>
                calls == old(calls) + [ReadTimer(timerFd)]
                && assembler.sequence == old(assembler.sequence)
                && reasonToQuit == old(reasonToQuit)
      ensures w.read >= 0 ==>
                calls == old(calls) + [ReadTimer(timerFd)] + TickCalls(old(assembler.sequence), canFd, w.sent)
                && assembler.sequence == Next(old(assembler.sequence))
                && reasonToQuit == if SendOk(w.sent) then old(reasonToQuit) else 1
    {
      calls := calls + [ReadTimer(timerFd)];
      timerStatus := w.read;
      if timerStatus < 0 {
        return;
      }
      ghost var before := calls;
      TickTx(w.sent);
      assert calls == before + TickCalls(old(assembler.sequence), canFd, w.sent);
    }

    /** `CANThrInit`: creates the tick thread; fails when `pthread_create` returns non-zero. */
    method ThrInit(thread: int) returns (status: uint8)
      modifies this`calls
      ensures calls == old(calls) + [CreateThread]
      ensures status == SUCCESS <==> thread == 0
      ensures status == FAILURE <==> thread != 0
    {
      calls := calls + [CreateThread];
      if thread != 0 {
        return FAILURE;
      }
      return SUCCESS;
    }

    /**
     * `CANIfcInit`: creates the socket (keeping its descriptor in `can_fd`),
     * looks up the index of "vcan0", binds; stops at the first failure and
     * closes nothing itself.
     */
    method IfcInit(o: InitOutcomes) returns (status: uint8)
      modifies this`canFd, this`calls
      ensures canFd == o.socket
      ensures calls == old(calls) + IfcTrace(o)
      ensures status == SUCCESS <==> IfcOk(o)
      ensures status == FAILURE <==> !IfcOk(o)
    {
      canFd := o.socket;
      calls := calls + [OpenSocket];
      if canFd < 0 {
        return FAILURE;
      }
      calls := calls + [LookupIndex(canFd, IF_VCAN0)];
      if o.ioctl < 0 {
        return FAILURE;
      }
      calls := calls + [BindSocket(canFd)];
      if o.bind < 0 {
        return FAILURE;
      }
      return SUCCESS;
    }

    /**
     * `CANClose`: closes `can_fd` (whatever it holds, with no guard against
     * a second close), sets `reason_to_quit` and calls `Shutdown`.
     */
    method Close() returns (status: uint8)
      modifies this`calls, this`reasonToQuit, flags
      ensures status == SUCCESS
      ensures calls == old(calls) + [CloseSocket(canFd)]
      ensures reasonToQuit == 1
      ensures flags.canActive == 0 && flags.appActive == old(flags.appActive)
    {
      calls := calls + [CloseSocket(canFd)];
      reasonToQuit := 1;
      flags.Shutdown();
      return SUCCESS;
    }

    /**
     * `CANInit`: binds the interface, then creates the thread only if that
     * succeeded; on any failure calls `CANClose` and fails.
     */
    method Init(o: InitOutcomes) returns (status: uint8)
      modifies this`canFd, this`calls, this`reasonToQuit, flags
      ensures canFd == o.socket
      ensures calls == old(calls) + InitTrace(o)
      ensures status == SUCCESS <==> InitSucceeds(o)
      ensures status == FAILURE <==> !InitSucceeds(o)
      ensures InitSucceeds(o) ==> reasonToQuit == old(reasonToQuit) && flags.canActive == old(flags.canActive)
      ensures !InitSucceeds(o) ==> reasonToQuit == 1 && flags.canActive == 0
      ensures flags.appActive == old(flags.appActive)
    {
      var st := IfcInit(o);
      if st == SUCCESS {
        st := ThrInit(o.thread);
      }
      if st == SUCCESS {
        status := SUCCESS;
      } else {
        var _ := Close();
        status := FAILURE;
      }
    }
  }
}
