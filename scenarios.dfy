/**
 * Event sequences driven through the dispatcher, each stating exactly which
 * datagrams go out and which callbacks fire.
 */
module Scenarios {
  import opened Wrappers
  import opened Protocol
  import opened IPort

  /**
   * Address preset to 192.168.1.50: `setIntensity(5, 7)` sends
   * "inten_5_7\r\n" straight to port 10001 there, and after the send and the
   * delay its callback fires without an error.
   */
  method PresetAddress() returns (sent: seq<Datagram>, completed: seq<Completion>)
    ensures sent == [Datagram(TextLine("inten_5_7\r\n"), 10001, "192.168.1.50")]
    ensures completed == [Completion(0, None)]
  {
    var d := new Dispatcher(Some("192.168.1.50"), None);
    assert Text(AreaIntensity(5, 7)) == "inten_5_7" by {
    }
    var r := d.SetIntensity(5, 7);
    d.Process();
    assert "inten_5_7" + "\r\n" == "inten_5_7\r\n";
    d.SendComplete(None);
    d.DelayElapsed();
    sent, completed := d.sent, d.completed;
  }

  /** The in-flight command's send succeeds and its delay runs out. */
  method SendSucceeds(d: Dispatcher)
    requires d.Valid() && d.phase.Sending?
    modifies d
    ensures d.Valid()
    ensures d.phase == Idle && d.current == None
    ensures d.completed == old(d.completed) + [Completion(old(d.current).value.id, None)]
    ensures (d.ipAddress, d.pending, d.attempts, d.sent, d.closeThrows) == old((d.ipAddress, d.pending, d.attempts, d.sent, d.closeThrows))
  {
    d.SendComplete(None);
    d.DelayElapsed();
  }

  /**
   * No address, broadcast 192.168.1.255: `setAll(true)` and `setAll(false)`
   * are queued and the first one starts a discovery, broadcasting the probe.
   */
  method ProbeBroadcast() returns (d: Dispatcher)
    ensures fresh(d) && d.Valid()
    ensures d.ipAddress == None && d.phase == Discovering
    ensures d.current == Some(Task(0, "all_on")) && d.pending == [Task(1, "all_off")]
    ensures d.attempts == [Attempt(0, false, true, true, 0)]
    ensures d.sent == [Datagram(Binary([0x00, 0x01, 0x00, 0xF5]), 30718, "192.168.1.255")]
    ensures d.completed == [] && d.closeThrows == []
  {
    d := new Dispatcher(None, Some("192.168.1.255"));
    var first := d.SetAll(true);
    var second := d.SetAll(false);
    d.Process();
  }

  /**
   * While probing, a "NO" reply is ignored; the "YES" reply from 192.168.1.77
   * makes that the address and "all_on\r\n" goes there.
   */
  method Discovered() returns (address: Option<Host>, sent: seq<Datagram>)
    ensures address == Some("192.168.1.77")
    ensures sent == [
      Datagram(Binary([0x00, 0x01, 0x00, 0xF5]), 30718, "192.168.1.255"),
      Datagram(TextLine("all_on\r\n"), 10001, "192.168.1.77")]
  {
    var d := ProbeBroadcast();
    d.DiscoveryReply([0x4E, 0x4F], "192.168.1.99");
    d.DiscoveryReply([0x59, 0x45, 0x53], "192.168.1.77");
    assert "all_on" + "\r\n" == "all_on\r\n";
    address, sent := d.ipAddress, d.sent;
  }

  /**
   * After a discovery succeeded, the attempt's timeout reports nothing, and
   * the next command goes to the discovered address without a new probe.
   */
  method AddressReused() returns (sent: seq<Datagram>, completed: seq<Completion>, throws: seq<nat>)
    ensures |sent| == 3 && sent[2] == Datagram(TextLine("all_off\r\n"), 10001, "192.168.1.77")
    ensures completed == [Completion(0, None)]
    ensures throws == []
  {
    var d := ProbeBroadcast();
    d.DiscoveryReply([0x59, 0x45, 0x53], "192.168.1.77");
    d.DiscoveryTimeout(0);
    SendSucceeds(d);
    d.Process();
    assert "all_off" + "\r\n" == "all_off\r\n";
    sent, completed, throws := d.sent, d.completed, d.closeThrows;
  }

  /**
   * No address and no controller: `setArea(3, true)` and `setArea(4, true)`
   * are queued, the first one broadcasts a probe, and a socket error fails it.
   */
  method SocketErrorFailsFirst() returns (d: Dispatcher)
    ensures fresh(d) && d.Valid()
    ensures d.ipAddress == None && d.broadcastAddress == "255.255.255.255"
    ensures d.phase == Idle && |d.pending| == 1
    ensures d.attempts == [Attempt(0, false, false, true, 1)]
    ensures d.sent == [Datagram(Binary([0x00, 0x01, 0x00, 0xF5]), 30718, "255.255.255.255")]
    ensures d.completed == [Completion(0, Some(SocketError("EADDRINUSE")))] && d.closeThrows == []
  {
    d := new Dispatcher(None, None);
    var first := d.SetArea(3, true);
    var second := d.SetArea(4, true);
    d.Process();
    d.DiscoveryError("EADDRINUSE");
  }

  /**
   * After the socket error the address stays unknown, so the second task
   * broadcasts a probe again. The first attempt's timeout, which is never
   * cleared, then runs its error callback again: closing the already closed
   * socket throws, so the first task's callback is not called a second time.
   */
  method ErrorThenTimeout() returns (address: Option<Host>, sent: seq<Datagram>, completed: seq<Completion>, throws: seq<nat>)
    ensures address == None
    ensures sent == [
      Datagram(Binary([0x00, 0x01, 0x00, 0xF5]), 30718, "255.255.255.255"),
      Datagram(Binary([0x00, 0x01, 0x00, 0xF5]), 30718, "255.255.255.255")]
    ensures completed == [Completion(0, Some(SocketError("EADDRINUSE")))]
    ensures throws == [0]
  {
    var d := SocketErrorFailsFirst();
    d.Process();
    d.DiscoveryTimeout(0);
    address, sent, completed, throws := d.ipAddress, d.sent, d.completed, d.closeThrows;
  }
}
