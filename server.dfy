/**
 * `find_available_port` in camera_web/app.py: the dashboard binds to the first
 * port from a base port on that can be bound. The operating system's bind is
 * abstract: `occupied` is the set of ports whose bind raises OSError.
 */
module Server {
  import opened Wrappers

  const DEFAULT_START_PORT: int := 5001
  const DEFAULT_MAX_ATTEMPTS: int := 100

  /** Ports `socket.bind` accepts; any other raises OverflowError, which the loop does not catch. */
  predicate InPortRange(port: int)
  {
    0 <= port <= 65535
  }

  datatype PortError =
    | NoAvailablePort(first: int, last: int)   // the RuntimeError after the loop
    | PortOutOfRange(port: int)                // OverflowError out of bind()

  /** Every port in [lo, hi) is bindable in principle and taken. */
  ghost predicate AllTaken(lo: int, hi: int, occupied: set<int>)
  {
    forall p :: lo <= p < hi ==> InPortRange(p) && p in occupied
  }

  method FindAvailablePort(start: int, maxAttempts: int, occupied: set<int>) returns (r: Result<int, PortError>)
    ensures r.Ok? ==> start <= r.value < start + maxAttempts && InPortRange(r.value) && r.value !in occupied
                      && AllTaken(start, r.value, occupied)
    ensures r.Err? && r.error.PortOutOfRange? ==>
      start <= r.error.port < start + maxAttempts && !InPortRange(r.error.port)
      && AllTaken(start, r.error.port, occupied)
    ensures r.Err? && r.error.NoAvailablePort? ==>
      r.error == NoAvailablePort(start, start + maxAttempts) && AllTaken(start, start + maxAttempts, occupied)
  {
    var port := start;
    while port < start + maxAttempts
      invariant start <= port
      invariant port <= start + maxAttempts || maxAttempts <= 0
      invariant AllTaken(start, port, occupied)
    {
      if !InPortRange(port) {
        return Err(PortOutOfRange(port));
      }
      if port !in occupied {
        return Ok(port);
      }
      port := port + 1;
    }
    return Err(NoAvailablePort(start, start + maxAttempts));
  }

  /** With 5001 to 5003 taken, the dashboard comes up on 5004; with nothing free in range it stops. */
  method BusyPortsExample() returns (busy: Result<int, PortError>, none: Result<int, PortError>)
    ensures busy == Ok(5004)
    ensures none == Err(NoAvailablePort(5001, 5001))
  {
    var taken: set<int> := {5001, 5002, 5003};
    busy := FindAvailablePort(DEFAULT_START_PORT, DEFAULT_MAX_ATTEMPTS, taken);
    assert 5004 !in taken;
    assert !AllTaken(5001, 5101, taken);
    assert busy.Ok? ==> !AllTaken(5001, busy.value, taken) || busy.value <= 5004;
    none := FindAvailablePort(DEFAULT_START_PORT, 0, {});
  }
}
