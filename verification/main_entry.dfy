/**
 * The rest of src/main.c: the SIGINT handler `terminate` and `main`, which
 * initialises the CAN side and then polls the two run flags once a second
 * until one of them is cleared.
 */
module MainEntry {
  import opened Defs
  import opened MainState
  import opened CanSpec
  import opened Can

  /**
   * What, besides the sleep itself, happens during one `usleep` of the
   * foreground loop: nothing, the SIGINT handler runs, or the tick thread
   * leaves its loop and runs `CANClose`.
   */
  datatype Background = Quiet | Interrupt | TickThreadExit

  /** Number of sleeps, from the first, during which nothing happened. */
  function QuietPrefix(schedule: seq<Background>): (r: nat)
    ensures r <= |schedule|
    decreases |schedule|
  {
    if |schedule| == 0 || schedule[0] != Quiet then 0
    else 1 + QuietPrefix(schedule[1..])
  }

  /** QuietPrefix counts exactly the leading run of quiet sleeps. */
  lemma {:induction false} QuietPrefixIsLeadingRun(schedule: seq<Background>)
    ensures forall k :: 0 <= k < QuietPrefix(schedule) ==> schedule[k] == Quiet
    ensures QuietPrefix(schedule) < |schedule| ==> schedule[QuietPrefix(schedule)] != Quiet
    decreases |schedule|
  {
    if |schedule| > 0 && schedule[0] == Quiet {
      QuietPrefixIsLeadingRun(schedule[1..]);
      forall k | 0 < k < QuietPrefix(schedule)
        ensures schedule[k] == Quiet
      {
        assert schedule[k] == schedule[1..][k - 1];
      }
    }
  }

  /**
   * `terminate`, the SIGINT handler: clears `app_active`, then runs
   * `CANClose`, which closes the socket, sets `reason_to_quit` and clears
   * `can_active`.  The signal number it receives is not used.
   */
  method Terminate(drv: CanDriver)
    modifies drv, drv.flags
    ensures drv.flags.appActive == 0 && drv.flags.canActive == 0
    ensures drv.reasonToQuit == 1 && drv.canFd == old(drv.canFd)
    ensures drv.calls == old(drv.calls) + [CloseSocket(drv.canFd)]
  {
    drv.flags.appActive := 0;
    var _ := drv.Close();
  }

  /**
   * `main`: runs `CANInit` on fresh process state and ignores its result,
   * then sleeps while both `app_active` and `can_active` are non-zero,
   * `schedule[k]` being what happened during the k-th sleep.  Returns 0 on
   * every path and the number of sleeps: none when initialisation failed,
   * otherwise one per sleep up to and including the first one during which
   * the handler or the tick thread stopped the process.
   */
  method RunMain(init: InitOutcomes, schedule: seq<Background>) returns (exitCode: int, sleeps: nat)
    requires InitSucceeds(init) ==> QuietPrefix(schedule) < |schedule|
    ensures exitCode == 0
    ensures !InitSucceeds(init) ==> sleeps == 0
    ensures InitSucceeds(init) ==> sleeps == QuietPrefix(schedule) + 1
  {
    var flags := new AppFlags();
    var drv := new CanDriver(flags);
    var _ := drv.Init(init);
    QuietPrefixIsLeadingRun(schedule);
    sleeps := 0;
    while flags.KeepPolling()
      invariant drv.flags == flags
      invariant sleeps <= |schedule|
      invariant flags.KeepPolling() ==> InitSucceeds(init) && sleeps <= QuietPrefix(schedule)
      invariant !flags.KeepPolling() ==> sleeps == if InitSucceeds(init) then QuietPrefix(schedule) + 1 else 0
      decreases |schedule| - sleeps
    {
      // usleep of one second
      match schedule[sleeps] {
        case Quiet =>
        case Interrupt =>
          Terminate(drv);
        case TickThreadExit =>
          var _ := drv.Close();
      }
      sleeps := sleeps + 1;
    }
    exitCode := 0;
  }

  /** A trace that adds no send to the calls of initialisation sends nothing. */
  lemma InitThenNoSend(init: InitOutcomes, tail: seq<Call>)
    requires forall c :: c in tail ==> !c.Transmit?
    ensures SentFrames(InitTrace(init) + tail) == []
  {
    InitOrdering(init);
    NoTransmitNoFrames(tail);
    SentFramesAppend(InitTrace(init), tail);
  }

  /**
   * A run in which SIGINT arrives after a successful `CANInit` and before
   * the tick thread first tests its loop condition: either before the
   * thread starts (`armedFirst` false) or once it has created and armed
   * its timer (`armedFirst` true).  Either way the thread finds
   * `reason_to_quit` set, sends nothing, and runs `CANClose` a second
   * time, so the socket descriptor is closed twice.
   */
  method InterruptBeforeFirstTick(init: InitOutcomes, armedFirst: bool, timerFd: int, armResult: int, wakes: seq<Wake>)
    returns (trace: seq<Call>)
    requires InitSucceeds(init)
    ensures trace == InitTrace(init)
                     + if armedFirst
                       then [CreateTimer, ArmTimer(timerFd, TICK_PERIOD_NS), CloseSocket(init.socket), CloseSocket(init.socket)]
                       else [CloseSocket(init.socket), CreateTimer, ArmTimer(timerFd, TICK_PERIOD_NS), CloseSocket(init.socket)]
    ensures SentFrames(trace) == []
  {
    var flags := new AppFlags();
    var drv := new CanDriver(flags);
    var _ := drv.Init(init);
    var timerStatus;
    ghost var early: seq<Call>;
    if armedFirst {
      timerStatus := drv.StartTimer(timerFd, armResult);
      Terminate(drv);
      early := [CreateTimer, ArmTimer(timerFd, TICK_PERIOD_NS), CloseSocket(init.socket)];
    } else {
      Terminate(drv);
      timerStatus := drv.StartTimer(timerFd, armResult);
      early := [CloseSocket(init.socket), CreateTimer, ArmTimer(timerFd, TICK_PERIOD_NS)];
    }
    assert drv.calls == InitTrace(init) + early && drv.canFd == init.socket;
    drv.TickUntilQuit(timerFd, timerStatus, wakes);
    trace := drv.calls;
    assert trace == InitTrace(init) + (early + [CloseSocket(init.socket)]);
    InitThenNoSend(init, early + [CloseSocket(init.socket)]);
  }
}
