/** The application state shared by all commands: the flag through which
    a stop of the running operations is requested. */
module AppState {
  class AppState {
    /** Whether a stop of all operations has been requested. */
    var stopRequested: bool

    /** `new`: no stop requested. */
    constructor ()
      ensures !stopRequested
    {
      stopRequested := false;
    }

    /** `Default`: the same state as `new`. */
    static method Default() returns (state: AppState)
      ensures fresh(state)
      ensures !state.stopRequested
    {
      state := new AppState();
    }

    /** `request_stop`: sets the flag, whatever it was. */
    method RequestStop()
      modifies this
      ensures stopRequested
    {
      stopRequested := true;
    }

    /** `clear_stop`: clears the flag, whatever it was. */
    method ClearStop()
      modifies this
      ensures !stopRequested
    {
      stopRequested := false;
    }

    /** `is_stop_requested`: reads the flag and changes nothing. */
    method IsStopRequested() returns (requested: bool)
      ensures requested == stopRequested
    {
      requested := stopRequested;
    }
  }
}
