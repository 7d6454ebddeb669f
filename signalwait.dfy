/**
 * `SignalWait` of server/signalWait.go: consume operating-system signals
 * until one of a chosen set arrives.  The signal channel is the finite
 * sequence of signals delivered before it is closed; the logger is the list
 * of signals it was told were ignored.
 */
module ServerSignals {
  import opened Results

  datatype Signal = Interrupt | Kill | Terminate | Hangup | Numbered(number: nat)

  /**
   * Build the filter set from `waitOn`, then take signals from the channel in
   * order: the first one in the filter is returned, every earlier one is
   * logged as ignored, and a channel that closes first yields None.
   */
  method SignalWait(signals: seq<Signal>, waitOn: seq<Signal>) returns (r: Option<Signal>, ignored: seq<Signal>)
    ensures |ignored| <= |signals| && ignored == signals[..|ignored|]
    ensures forall k :: 0 <= k < |ignored| ==> ignored[k] !in waitOn
    ensures r.None? <==> |ignored| == |signals|
    ensures r.Some? ==> r.value == signals[|ignored|] && r.value in waitOn
  {
    var filter: map<Signal, bool> := map[];
    for i := 0 to |waitOn|
      invariant forall s :: s in filter <==> s in waitOn[..i]
      invariant forall s :: s in filter ==> filter[s]
    {
      filter := filter[waitOn[i] := true];
    }
    assert waitOn[..|waitOn|] == waitOn;

    ignored := [];
    var i := 0;
    while i < |signals|
      invariant 0 <= i <= |signals|
      invariant ignored == signals[..i]
      invariant forall k :: 0 <= k < i ==> signals[k] !in waitOn
    {
      var s := signals[i];
      if s in filter && filter[s] {
        return Some(s), ignored;
      }
      ignored := ignored + [s];
      i := i + 1;
    }
    return None, ignored;
  }

  /** With nothing to wait on, no signal ends the wait: only the closed channel does. */
  method WaitOnNothing(signals: seq<Signal>) returns (r: Option<Signal>, ignored: seq<Signal>)
    ensures r.None? && ignored == signals
  {
    r, ignored := SignalWait(signals, []);
  }

  /** The basic scenario of server/signalWait_test.go: waiting on Kill, Interrupt is skipped and Kill returned. */
  method InterruptThenKill() returns (r: Option<Signal>, ignored: seq<Signal>)
    ensures r == Some(Kill) && ignored == [Interrupt]
  {
    var stream := [Interrupt, Kill];
    r, ignored := SignalWait(stream, [Kill]);
    assert Interrupt !in [Kill] && Kill in [Kill];
    assert stream[0] == Interrupt && stream[1] == Kill;
  }
}
