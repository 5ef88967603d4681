/**
 * The two global run flags of src/main.c and `Shutdown`, the function of
 * main.c that src/can.c calls back into.  The rest of main.c (`terminate`
 * and `main`) is in module MainEntry, because it calls into can.c and
 * Dafny modules cannot import each other in a cycle.
 */
module MainState {
  import opened Defs

  /** The globals `app_active` and `can_active`. */
  class AppFlags {
    var appActive: uint8
    var canActive: uint8

    /** Both flags start at 1 (their static initialisers). */
    constructor ()
      ensures appActive == 1 && canActive == 1
    {
      appActive, canActive := 1, 1;
    }

    /** `Shutdown`: clears `can_active` and nothing else. */
    method Shutdown()
      modifies this
      ensures canActive == 0
      ensures appActive == old(appActive)
    {
      canActive := 0;
    }

    /** The condition of main's polling loop: both flags non-zero. */
    predicate KeepPolling()
      reads this
    {
      appActive != 0 && canActive != 0
    }
  }
}
