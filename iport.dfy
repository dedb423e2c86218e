/**
 * The iPort command dispatcher of lib/LightSymphonyiPort.js: a FIFO queue
 * with one worker that discovers the controller when its address is unknown,
 * sends each command as one UDP datagram and waits a fixed delay before it
 * takes the next one.
 *
 * Sockets and timers are not run: every asynchronous event the source waits
 * for (a discovery reply, a socket error, a timer firing, a send finishing)
 * is a method of `Dispatcher`, and every datagram the source would emit is
 * appended to `sent`.
 */
module IPort {
  import opened Wrappers
  import opened Protocol

  const COMMAND_PORT: nat := 10001
  const DISCOVER_PORT: nat := 30718
  const DEFAULT_BROADCAST: string := "255.255.255.255"
  /** The discovery probe broadcast to DISCOVER_PORT. */
  const DISCOVER_MESSAGE: seq<bv8> := [0x00, 0x01, 0x00, 0xF5]
  /** The only accepted discovery reply: the ASCII bytes of "YES". */
  const VALID_RESPONSE: seq<bv8> := [0x59, 0x45, 0x53]

  /** A network address as the socket layer reports it; never empty. */
  type Host = s: string | s != "" witness "0.0.0.0"

  datatype Payload = Binary(bytes: seq<bv8>) | TextLine(line: string)

  datatype Datagram = Datagram(payload: Payload, port: nat, host: Host)

  /** A queued command; `id` numbers the tasks in push order. */
  datatype Task = Task(id: nat, command: string)

  /** What the single worker is doing. */
  datatype Phase =
    | Idle                                  // no task in flight
    | Discovering                           // waiting for a discovery reply or failure
    | Sending                               // command datagram handed to the socket
    | Delaying(sendError: Option<Error>)    // send finished; post-send delay running

  /**
   * One call of `_discoveriPort`: its `discovered` latch, whether its socket is
   * still open, whether its timeout is still pending, and how many times its
   * error callback has passed a failure on to the task (at most once).
   */
  datatype Attempt = Attempt(task: nat, discovered: bool, open: bool, timerPending: bool, reports: nat)

  /** A task's callback firing, with the error it was given (None = success). */
  datatype Completion = Completion(task: nat, error: Option<Error>)

  function ProbeDatagram(broadcast: Host): Datagram {
    Datagram(Binary(DISCOVER_MESSAGE), DISCOVER_PORT, broadcast)
  }

  function CommandDatagram(command: string, host: Host): Datagram {
    Datagram(TextLine(command + "\r\n"), COMMAND_PORT, host)
  }

  /** A configured address after JavaScript's truthiness test: absent and "" both give None. */
  function FromConfig(s: Option<string>): (h: Option<Host>)
    ensures h.Some? <==> s.Some? && s.value != ""
    ensures h.Some? ==> h.value == s.value
  {
    if s.Some? && s.value != "" then Some(s.value) else None
  }

  /** A finished attempt: its socket closed, and it either matched or reported exactly once. */
  predicate Settled(a: Attempt) {
    && !a.open
    && (a.discovered ==> a.reports == 0)
    && (!a.discovered ==> a.reports == 1)
  }

  /**
   * The datagram log on values: probes go to the broadcast address and command
   * lines to the known address `ip`; each task sends at most one command
   * line, in push order; a task whose line was sent is the in-flight one
   * (number `done`, the count of completed tasks) until its delay has ended
   * (`busy`: the worker is sending or delaying).
   */
  ghost predicate SentOk(sent: seq<Datagram>, origin: seq<nat>, pushed: seq<string>, done: nat,
                         broadcast: Host, ip: Option<Host>, busy: bool)
  {
    && |origin| == |sent|
    && (forall i :: 0 <= i < |sent| ==> origin[i] <= done && origin[i] < |pushed|)
    && (forall i :: 0 <= i < |sent| && sent[i].payload.Binary? ==> sent[i] == ProbeDatagram(broadcast))
    && (forall i :: 0 <= i < |sent| && sent[i].payload.TextLine? ==>
          ip.Some? && sent[i] == CommandDatagram(pushed[origin[i]], ip.value))
    && (forall i, j :: 0 <= i < j < |sent| && sent[i].payload.TextLine? && sent[j].payload.TextLine? ==>
          origin[i] < origin[j])
    && (forall i :: 0 <= i < |sent| && sent[i].payload.TextLine? && origin[i] == done ==> busy)
    && (busy ==> |sent| > 0 && sent[|sent| - 1].payload.TextLine? && origin[|sent| - 1] == done)
  }

  /**
   * When the worker is not sending, it may send the in-flight task's line to
   * `ip`; an address learnt just now is allowed, because no line went out
   * while it was unknown.
   */
  lemma SendLineKeepsLog(sent: seq<Datagram>, origin: seq<nat>, pushed: seq<string>, done: nat,
                         broadcast: Host, ip0: Option<Host>, ip: Host)
    requires SentOk(sent, origin, pushed, done, broadcast, ip0, false)
    requires ip0 == Some(ip) || ip0.None?
    requires done < |pushed|
    ensures SentOk(sent + [CommandDatagram(pushed[done], ip)], origin + [done], pushed, done, broadcast, Some(ip), true)
  {
    var sent', origin' := sent + [CommandDatagram(pushed[done], ip)], origin + [done];
    assert forall i :: 0 <= i < |sent| ==> sent'[i] == sent[i] && origin'[i] == origin[i];
    assert forall i :: 0 <= i < |sent| && sent[i].payload.TextLine? ==> origin[i] < done;
  }

  class Dispatcher {
    var ipAddress: Option<Host>
    const broadcastAddress: Host
    var pending: seq<Task>
    var current: Option<Task>
    var phase: Phase
    var attempts: seq<Attempt>
    /** Every datagram emitted so far, in order. */
    var sent: seq<Datagram>
    /** Every task callback the queue has received, in order. */
    var completed: seq<Completion>
    /**
     * Tasks whose discovery timeout ran the error callback again after a
     * socket error had already closed the socket: `socket.close()` throws an
     * uncaught exception there, before the task's callback is reached.
     */
    var closeThrows: seq<nat>
    /** The command of every task ever pushed, indexed by task id. */
    ghost var pushed: seq<string>
    /** For each datagram in `sent`, the id of the task it was emitted for. */
    ghost var origin: seq<nat>

    function InFlight(): nat
      reads this
    {
      if current.Some? then 1 else 0
    }

    /** One slot, and tasks numbered in push order: the completed ones, then the one in flight, then the queue. */
    ghost predicate QueueValid()
      reads this
    {
      && (current.None? <==> phase.Idle?)
      && |pushed| == |completed| + InFlight() + |pending|
      && (forall i :: 0 <= i < |completed| ==> completed[i].task == i)
      && (current.Some? ==> current.value == Task(|completed|, pushed[|completed|]))
      && (forall i :: 0 <= i < |pending| ==> pending[i].id == |completed| + InFlight() + i)
      && (forall i :: 0 <= i < |pending| ==> pending[i].command == pushed[pending[i].id])
    }

    /** Only the in-flight task's latest attempt can still be open; every other one is settled. */
    ghost predicate DiscoveryValid()
      reads this
    {
      && (phase.Discovering? ==>
            ipAddress.None? && |attempts| > 0 && attempts[|attempts| - 1] == Attempt(|completed|, false, true, true, 0))
      && (forall j :: 0 <= j < |attempts| && !(phase.Discovering? && j == |attempts| - 1) ==>
            Settled(attempts[j]) && attempts[j].task <= |completed| &&
            (!attempts[j].discovered ==> attempts[j].task < |completed|))
      && (forall i :: 0 <= i < |closeThrows| ==> closeThrows[i] < |completed|)
    }

    ghost predicate SentValid()
      reads this
    {
      SentOk(sent, origin, pushed, |completed|, broadcastAddress, ipAddress, phase.Sending? || phase.Delaying?)
    }

    ghost predicate Valid()
      reads this
    {
      QueueValid() && DiscoveryValid() && SentValid()
    }

    /** `new LightSymphonyiPort(log, ipAddress, broadcastAddress)`. */
    constructor (ipAddressConfig: Option<string>, broadcastConfig: Option<string>)
      ensures Valid()
      ensures ipAddress == FromConfig(ipAddressConfig)
      ensures broadcastAddress == if FromConfig(broadcastConfig).Some? then FromConfig(broadcastConfig).value else DEFAULT_BROADCAST
      ensures pending == [] && current.None? && phase == Idle && attempts == []
      ensures sent == [] && completed == [] && closeThrows == [] && pushed == []
    {
      ipAddress := FromConfig(ipAddressConfig);
      broadcastAddress := if FromConfig(broadcastConfig).Some? then FromConfig(broadcastConfig).value else DEFAULT_BROADCAST;
      pending, current, phase, attempts := [], None, Idle, [];
      sent, completed, closeThrows := [], [], [];
      pushed, origin := [], [];
    }

    /** `_sendCommand`: append the command to the queue; `id` identifies its callback. */
    method SendCommand(command: string) returns (id: nat)
      requires Valid()
      modifies this
      ensures Valid()
      ensures id == |old(pushed)| && pushed == old(pushed) + [command]
      ensures pending == old(pending) + [Task(id, command)]
      ensures (ipAddress, current, phase, attempts) == old((ipAddress, current, phase, attempts))
      ensures (sent, completed, closeThrows) == old((sent, completed, closeThrows))
    {
      id := |completed| + InFlight() + |pending|;
      pending := pending + [Task(id, command)];
      pushed := pushed + [command];
    }

    /** `setAll`: queues "all_on" or "all_off". */
    method SetAll(on: bool) returns (id: nat)
      requires Valid()
      modifies this
      ensures Valid()
      ensures id == |old(pushed)| && pushed == old(pushed) + [if on then "all_on" else "all_off"]
      ensures pending == old(pending) + [Task(id, if on then "all_on" else "all_off")]
      ensures (ipAddress, current, phase, attempts) == old((ipAddress, current, phase, attempts))
      ensures (sent, completed, closeThrows) == old((sent, completed, closeThrows))
    {
      id := SendCommand(Text(Protocol.SetAll(on)));
    }

    /** `setArea`: an invalid area fails at once and queues nothing. */
    method SetArea(area: int, on: bool) returns (r: Result<nat, Error>)
      requires Valid()
      modifies this
      ensures Valid()
      ensures !ValidArea(area) ==> r == Failure(InvalidArea(area)) && unchanged(this)
      ensures ValidArea(area) ==>
        && r == Success(|old(pushed)|)
        && pending == old(pending) + [Task(r.value, Text(AreaLights(area, on)))]
        && pushed == old(pushed) + [Text(AreaLights(area, on))]
      ensures (ipAddress, current, phase, attempts) == old((ipAddress, current, phase, attempts))
      ensures (sent, completed, closeThrows) == old((sent, completed, closeThrows))
    {
      var request := Protocol.SetArea(area, on);
      if request.Failure? {
        r := Failure(request.error);
      } else {
        var id := SendCommand(Text(request.value));
        r := Success(id);
      }
    }

    /** `setIntensity`: the area is checked first, then the intensity; a failure queues nothing. */
    method SetIntensity(area: int, intensity: int) returns (r: Result<nat, Error>)
      requires Valid()
      modifies this
      ensures Valid()
      ensures !ValidArea(area) ==> r == Failure(InvalidArea(area)) && unchanged(this)
      ensures ValidArea(area) && !ValidIntensity(intensity) ==> r == Failure(InvalidIntensity(intensity)) && unchanged(this)
      ensures ValidArea(area) && ValidIntensity(intensity) ==>
        && r == Success(|old(pushed)|)
        && pending == old(pending) + [Task(r.value, Text(AreaIntensity(area, intensity)))]
        && pushed == old(pushed) + [Text(AreaIntensity(area, intensity))]
      ensures (ipAddress, current, phase, attempts) == old((ipAddress, current, phase, attempts))
      ensures (sent, completed, closeThrows) == old((sent, completed, closeThrows))
    {
      var request := Protocol.SetIntensity(area, intensity);
      if request.Failure? {
        r := Failure(request.error);
      } else {
        var id := SendCommand(Text(request.value));
        r := Success(id);
      }
    }

    /**
     * The queue hands its head to the idle worker. With a known address the
     * command line goes out at once; otherwise a discovery probe is broadcast.
     * When the worker is busy or the queue is empty nothing happens.
     */
    method Process()
      requires Valid()
      modifies this
      ensures Valid()
      ensures (ipAddress, pushed, completed, closeThrows) == old((ipAddress, pushed, completed, closeThrows))
      ensures !(old(phase).Idle? && old(pending) != []) ==> unchanged(this)
      ensures old(phase).Idle? && old(pending) != [] ==>
        && current == Some(old(pending)[0])
        && pending == old(pending)[1..]
        && (old(ipAddress).Some? ==>
              && phase == Sending
              && attempts == old(attempts)
              && sent == old(sent) + [CommandDatagram(old(pending)[0].command, old(ipAddress).value)])
        && (old(ipAddress).None? ==>
              && phase == Discovering
              && attempts == old(attempts) + [Attempt(old(pending)[0].id, false, true, true, 0)]
              && sent == old(sent) + [ProbeDatagram(broadcastAddress)])
    {
      if phase.Idle? && pending != [] {
        if ipAddress.Some? {
          StartSend();
        } else {
          StartDiscovery();
        }
      }
    }

    /** The worker takes the head of the queue and sends its line to the known address. */
    method StartSend()
      requires Valid() && phase.Idle? && pending != [] && ipAddress.Some?
      modifies this
      ensures Valid()
      ensures (ipAddress, pushed, completed, closeThrows, attempts) == old((ipAddress, pushed, completed, closeThrows, attempts))
      ensures current == Some(old(pending)[0]) && pending == old(pending)[1..]
      ensures phase == Sending
      ensures sent == old(sent) + [CommandDatagram(old(pending)[0].command, ipAddress.value)]
    {
      var task := pending[0];
      SendLineKeepsLog(sent, origin, pushed, |completed|, broadcastAddress, ipAddress, ipAddress.value);
      pending := pending[1..];
      current := Some(task);
      sent := sent + [CommandDatagram(task.command, ipAddress.value)];
      origin := origin + [task.id];
      phase := Sending;
    }

    /** The worker takes the head of the queue and, the address being unknown, broadcasts a probe. */
    method StartDiscovery()
      requires Valid() && phase.Idle? && pending != [] && ipAddress.None?
      modifies this
      ensures Valid()
      ensures (ipAddress, pushed, completed, closeThrows) == old((ipAddress, pushed, completed, closeThrows))
      ensures current == Some(old(pending)[0]) && pending == old(pending)[1..]
      ensures phase == Discovering
      ensures attempts == old(attempts) + [Attempt(old(pending)[0].id, false, true, true, 0)]
      ensures sent == old(sent) + [ProbeDatagram(broadcastAddress)]
    {
      var task := pending[0];
      pending := pending[1..];
      current := Some(task);
      attempts := attempts + [Attempt(task.id, false, true, true, 0)];
      sent := sent + [ProbeDatagram(broadcastAddress)];
      origin := origin + [task.id];
      phase := Discovering;
    }

    /**
     * A datagram reaches the discovery socket. Only a payload equal to "YES"
     * byte for byte is accepted: it latches the attempt, closes its socket,
     * records the sender as the controller's address and sends the in-flight
     * command there. Anything else, or a datagram when no discovery socket is
     * open, changes nothing.
     */
    method DiscoveryReply(payload: seq<bv8>, sender: Host)
      requires Valid()
      modifies this
      ensures Valid()
      ensures (pushed, pending, current, completed, closeThrows) == old((pushed, pending, current, completed, closeThrows))
      ensures old(phase).Discovering? && payload == VALID_RESPONSE ==>
        && ipAddress == Some(sender)
        && phase == Sending
        && attempts == old(attempts)[|old(attempts)| - 1 := old(attempts)[|old(attempts)| - 1].(discovered := true, open := false)]
        && sent == old(sent) + [CommandDatagram(old(current).value.command, sender)]
      ensures !(old(phase).Discovering? && payload == VALID_RESPONSE) ==> unchanged(this)
    {
      if phase.Discovering? && payload == VALID_RESPONSE {
        var k := |attempts| - 1;
        SendLineKeepsLog(sent, origin, pushed, |completed|, broadcastAddress, ipAddress, sender);
        attempts := attempts[k := attempts[k].(discovered := true, open := false)];
        ipAddress := Some(sender);
        sent := sent + [CommandDatagram(current.value.command, sender)];
        origin := origin + [current.value.id];
        phase := Sending;
      }
    }

    /**
     * A socket error on the open discovery socket: the attempt is not latched,
     * so it closes the socket and the in-flight task completes with the error,
     * freeing the worker. The address stays unknown.
     */
    method DiscoveryError(cause: string)
      requires Valid()
      modifies this
      ensures Valid()
      ensures (ipAddress, pushed, pending, sent, closeThrows) == old((ipAddress, pushed, pending, sent, closeThrows))
      ensures old(phase).Discovering? ==>
        && phase == Idle && current == None
        && completed == old(completed) + [Completion(old(current).value.id, Some(SocketError(cause)))]
        && attempts == old(attempts)[|old(attempts)| - 1 := old(attempts)[|old(attempts)| - 1].(open := false, reports := 1)]
      ensures !old(phase).Discovering? ==> unchanged(this)
    {
      if phase.Discovering? {
        var k := |attempts| - 1;
        attempts := attempts[k := attempts[k].(open := false, reports := 1)];
        completed := completed + [Completion(current.value.id, Some(SocketError(cause)))];
        current := None;
        phase := Idle;
      }
    }

    /**
     * The discovery timeout of attempt `j` fires (it is never cleared). A
     * latched attempt ignores it. Otherwise the error callback runs: if the
     * attempt is still the one the worker waits for, its task completes with
     * DiscoverTimedOut; if an earlier socket error already closed the socket
     * and completed that task, closing the socket again throws, so the task's
     * callback is not called again and the throw lands in `closeThrows`.
     */
    method DiscoveryTimeout(j: nat)
      requires Valid()
      requires j < |attempts| && attempts[j].timerPending
      modifies this
      ensures Valid()
      ensures (ipAddress, pushed, pending, sent) == old((ipAddress, pushed, pending, sent))
      ensures old(attempts[j].discovered) ==>
        && attempts == old(attempts)[j := old(attempts[j]).(timerPending := false)]
        && (current, phase, completed, closeThrows) == old((current, phase, completed, closeThrows))
      ensures !old(attempts[j].discovered) && old(phase).Discovering? && j == |old(attempts)| - 1 ==>
        && attempts == old(attempts)[j := old(attempts[j]).(timerPending := false, open := false, reports := 1)]
        && phase == Idle && current == None
        && completed == old(completed) + [Completion(old(current).value.id, Some(DiscoverTimedOut))]
        && closeThrows == old(closeThrows)
      ensures !old(attempts[j].discovered) && !(old(phase).Discovering? && j == |old(attempts)| - 1) ==>
        && attempts == old(attempts)[j := old(attempts[j]).(timerPending := false)]
        && (current, phase, completed) == old((current, phase, completed))
        && closeThrows == old(closeThrows) + [old(attempts[j]).task]
    {
      var a := attempts[j];
      if a.discovered {
        attempts := attempts[j := a.(timerPending := false)];
      } else if phase.Discovering? && j == |attempts| - 1 {
        TimeoutFailsTask();
      } else {
        TimeoutCloseThrows(j);
      }
    }

    /** The timeout of the attempt the worker waits for: its task completes with DiscoverTimedOut. */
    method TimeoutFailsTask()
      requires Valid() && phase.Discovering?
      modifies this
      ensures Valid()
      ensures (ipAddress, pushed, pending, sent, closeThrows) == old((ipAddress, pushed, pending, sent, closeThrows))
      ensures attempts == old(attempts)[|old(attempts)| - 1 := old(attempts)[|old(attempts)| - 1].(timerPending := false, open := false, reports := 1)]
      ensures phase == Idle && current == None
      ensures completed == old(completed) + [Completion(old(current).value.id, Some(DiscoverTimedOut))]
    {
      var k := |attempts| - 1;
      attempts := attempts[k := attempts[k].(timerPending := false, open := false, reports := 1)];
      completed := completed + [Completion(current.value.id, Some(DiscoverTimedOut))];
      current := None;
      phase := Idle;
    }

    /**
     * The timeout of an attempt that already failed on a socket error: the
     * error callback runs again and throws when it closes the closed socket,
     * so the task's callback is not called a second time.
     */
    method TimeoutCloseThrows(j: nat)
      requires Valid()
      requires j < |attempts| && attempts[j].timerPending && !attempts[j].discovered
      requires !(phase.Discovering? && j == |attempts| - 1)
      modifies this
      ensures Valid()
      ensures (ipAddress, pushed, pending, sent, current, phase, completed) == old((ipAddress, pushed, pending, sent, current, phase, completed))
      ensures attempts == old(attempts)[j := old(attempts[j]).(timerPending := false)]
      ensures closeThrows == old(closeThrows) + [old(attempts[j]).task]
    {
      var a := attempts[j];
      attempts := attempts[j := a.(timerPending := false)];
      closeThrows := closeThrows + [a.task];
    }

    /** The command socket reports the send finished, with or without an error; the delay starts either way. */
    method SendComplete(error: Option<string>)
      requires Valid() && phase.Sending?
      modifies this
      ensures Valid()
      ensures phase == Delaying(if error.Some? then Some(SocketError(error.value)) else None)
      ensures (ipAddress, pushed, pending, current, attempts) == old((ipAddress, pushed, pending, current, attempts))
      ensures (sent, completed, closeThrows) == old((sent, completed, closeThrows))
    {
      phase := Delaying(if error.Some? then Some(SocketError(error.value)) else None);
    }

    /** The post-send delay ends: the in-flight task completes with the send's outcome and the worker is free. */
    method DelayElapsed()
      requires Valid() && phase.Delaying?
      modifies this
      ensures Valid()
      ensures phase == Idle && current == None
      ensures completed == old(completed) + [Completion(old(current).value.id, old(phase).sendError)]
      ensures (ipAddress, pushed, pending, attempts) == old((ipAddress, pushed, pending, attempts))
      ensures (sent, closeThrows) == old((sent, closeThrows))
    {
      completed := completed + [Completion(current.value.id, phase.sendError)];
      current := None;
      phase := Idle;
    }
  }
}
