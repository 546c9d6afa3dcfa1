/**
 * The process-wide "a print job is settling" flag (app/state.py). One
 * instance is created at start-up and every component that needs the flag
 * is handed a reference to that same object.
 */
module State {

  class KioskState {
    var handlingPrintError: bool

    /** The flag starts cleared. */
    constructor ()
      ensures !handlingPrintError
    {
      handlingPrintError := false;
    }

    /** Overwrites the flag; the object has no other state to disturb. */
    method SetHandlingPrintError(value: bool)
      modifies this
      ensures handlingPrintError == value
    {
      handlingPrintError := value;
    }

    /** Reads the flag without changing it. */
    method IsHandlingPrintError() returns (r: bool)
      ensures r == handlingPrintError
    {
      r := handlingPrintError;
    }
  }

  /** The getter returns whatever the most recent setter call stored. */
  method SetThenGet(state: KioskState, first: bool, second: bool) returns (seen: bool)
    modifies state
    ensures seen == second && state.handlingPrintError == second
  {
    state.SetHandlingPrintError(first);
    state.SetHandlingPrintError(second);
    seen := state.IsHandlingPrintError();
  }
}
