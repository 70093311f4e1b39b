/** Choice of the remote-debugging port for a new Chrome instance
    (`find_available_port`): a first-fit scan of one hundred consecutive
    ports.  Whether a port can be bound is the operating system's answer and
    is given as an oracle. */
module PortAllocator {
  import opened Wrappers

  /** The port Chrome's remote debugging conventionally listens on, where the
      scan starts. */
  const DefaultStartPort: nat := 9222
  /** How many consecutive ports are tried. */
  const ScanWidth: nat := 100
  const NoPortMessage := "No available ports found for Chrome debugging"

  /** Every port of the scanned window refuses to bind. */
  ghost predicate WindowExhausted(start: int, bindable: int -> bool) {
    forall p :: start <= p < start + ScanWidth ==> !bindable(p)
  }

  /** Tries `start`, `start + 1`, ... `start + 99` in order and returns the first
      port that binds; fails when none of them does. */
  method FindAvailablePort(start: int, bindable: int -> bool) returns (r: Result<int, string>)
    ensures r.Success? ==> start <= r.value < start + ScanWidth && bindable(r.value)
    ensures r.Success? ==> forall p :: start <= p < r.value ==> !bindable(p)
    ensures r.Failure? <==> WindowExhausted(start, bindable)
    ensures r.Failure? ==> r.error == NoPortMessage
  {
    var port := start;
    while port < start + ScanWidth
      invariant start <= port <= start + ScanWidth
      invariant forall p :: start <= p < port ==> !bindable(p)
    {
      if bindable(port) {
        return Success(port);
      }
      port := port + 1;
    }
    return Failure(NoPortMessage);
  }

  /** With 9222 to 9225 taken and 9226 free, the default scan picks 9226. */
  method FirstFreeAfterBusyPorts() returns (r: Result<int, string>)
    ensures r == Success(9226)
  {
    var bindable := p => p >= 9226;
    r := FindAvailablePort(DefaultStartPort, bindable);
    assert bindable(9226);
    assert r.Success?;
    assert !(r.value > 9226);
  }
}
