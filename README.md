# Light Symphony iPort and HomeKit accessory, modelled in Dafny

This project models the two pieces of logic in `homebridge-light-symphony`.

The first is the **iPort command layer** (`lib/LightSymphonyiPort.js`):
- `setAll`, `setArea` and `setIntensity` validate their arguments.
- Each valid request becomes one protocol line: `all_on`/`all_off`, `area_on n`/`area_off n` or `inten_a_i`.
- The line is pushed onto a FIFO queue with one worker.
- The worker sends each line as a UDP datagram to port 10001 of the controller.
- When the controller's address is unknown, the worker first broadcasts a discovery probe to port 30718. It takes the sender of the first reply that is exactly `YES` as the address.
- After each send it waits a fixed delay before it takes the next task.

The second is the **accessory's area table** (`index.js`):
- Areas are stored under `area_<number>`, each with an `on` flag and a brightness.
- The table is updated only when a device command succeeds.
- Area 0 stands for all lights. Switching it switches every area. Switching any other area recomputes area 0 as the AND of the others.
- A HomeKit brightness `b` is sent as the intensity `b / 10`.

Files:
- `wrappers.dfy`: `Option` and `Result`.
- `decimal.dfy`: the decimal text that `Number.prototype.toString()` gives for integers, with its inverse `Value`.
- `protocol.dfy`:
  - the validation and the command text, as pure functions;
  - `ParseCommand`, an independent reader of command lines, proved to invert `Text`.
- `iport.dfy`: the class `Dispatcher`, which is `LightSymphonyiPort`.
  - Sockets and timers are not run. Each asynchronous event the source waits for is a method: the worker taking a task, a discovery reply, a socket error, a discovery timeout, a send finishing, the delay ending.
  - Each datagram the source would emit is appended to `sent`.
  - Each task callback that fires is appended to `completed`.
  - The invariant `Valid()` holds after every event. It states:
    - at most one task is in flight;
    - tasks complete in push order (`completed[i].task == i`);
    - probes go only to the broadcast address;
    - command lines go only to the known address, each task's line at most once and in push order;
    - a discovery that matched never reports a failure, and one that failed reports to its task exactly once.
- `accessory.dfy`: the class `LightSymphonyAccessory`.
  - The table is built by the constructor's loop, which fails on a dimmable area 0.
  - Each HomeKit `set` handler is split into the request it makes of the dispatcher and the callback that runs with the command's outcome.
  - The invariant `TableValid` holds throughout: every area sits under its own number's key, and area 0 is on exactly when all the others are.
- `scenarios.dfy`: concrete event sequences, each with the exact datagrams and callbacks that result.

One behaviour of `_discoveriPort` is reproduced as written (lib/LightSymphonyiPort.js:75-89):
- A socket error before any `YES` closes the socket and calls the task's callback.
- The timeout set at line 89 is never cleared, so it later runs the same error callback again. The attempt is not latched, so that callback calls `socket.close()` at line 78 on the socket that is already closed. Node's `dgram` throws there, so `callback(error)` at line 79 is not reached. The task's callback is therefore not called a second time. Instead, an uncaught exception leaves the timer.
- The model records each such throw in `Dispatcher.closeThrows`, by task number. The invariant proves that it can only concern a task that has already completed.
- `Scenarios.ErrorThenTimeout` shows the sequence.

## Model

| member | source | states |
|---|---|---|
| Decimal.NatToString | lib/LightSymphonyiPort.js:104 | the text of a natural number is a non-empty string of decimal digits with no leading zero |
| Decimal.ValueOfNatToString | lib/LightSymphonyiPort.js:113 | reading the digits back gives the number: `Value(NatToString(n)) == n` |
| Decimal.NatToStringInjective | lib/LightSymphonyiPort.js:113 | distinct numbers have distinct texts |
| Decimal.IntToString | index.js:35 | an integer's text is non-empty and starts with `-` exactly when the integer is negative |
| Decimal.IntToStringInjective | index.js:35 | distinct integers have distinct texts |
| Protocol.SetAll | lib/LightSymphonyiPort.js:96-98 | `setAll(on)` always gives a command whose text is exactly `all_on` or `all_off` |
| Protocol.SetArea | lib/LightSymphonyiPort.js:100-105 | accepted iff 1 <= area <= 29; a rejection carries the area; an acceptance has text `area_on n` / `area_off n` |
| Protocol.SetIntensity | lib/LightSymphonyiPort.js:107-114 | accepted iff the area is in [1,29] and the intensity is in [1,10]; a bad area is reported before a bad intensity; the text is `inten_a_i` |
| Protocol.ParseAreaText | lib/LightSymphonyiPort.js:104 | the line of an area on/off command reads back as that command |
| Protocol.ParseIntensityOf | lib/LightSymphonyiPort.js:113 | `a_i` with digit strings a and i reads as the intensity command of their values |
| Protocol.ParseIntensityText | lib/LightSymphonyiPort.js:113 | the line of an intensity command reads back as that command |
| Protocol.ParseText | lib/LightSymphonyiPort.js:96-114 | every command's line reads back as that command (`ParseCommand` inverts `Text`) |
| Protocol.TextInjective | lib/LightSymphonyiPort.js:96-114 | two commands with the same line are the same command |
| IPort.FromConfig | lib/LightSymphonyiPort.js:17-18 | a configured address is kept exactly when it is present and non-empty (JavaScript truthiness) |
| IPort.SendLineKeepsLog | lib/LightSymphonyiPort.js:27 | sending the in-flight task's line to the known or just-learnt address keeps the datagram-log invariant |
| IPort.Dispatcher.constructor | lib/LightSymphonyiPort.js:15-20 | the address is the configured one if truthy, else unknown; the broadcast address defaults to 255.255.255.255; the queue is empty and the worker idle |
| IPort.Dispatcher.SendCommand | lib/LightSymphonyiPort.js:92-94 | the command joins the back of the queue under the next task number; nothing else changes |
| IPort.Dispatcher.SetAll | lib/LightSymphonyiPort.js:96-98 | queues exactly `all_on` or `all_off` |
| IPort.Dispatcher.SetArea | lib/LightSymphonyiPort.js:100-105 | an invalid area fails with InvalidArea and changes nothing; a valid one queues `area_on n` / `area_off n` |
| IPort.Dispatcher.SetIntensity | lib/LightSymphonyiPort.js:107-114 | area checked first, then intensity; a failure changes nothing; a success queues `inten_a_i` |
| IPort.Dispatcher.Process | lib/LightSymphonyiPort.js:20-46 | the idle worker takes the head of the queue: with a known address it sends `command\r\n` to port 10001 there, otherwise it opens a discovery attempt and broadcasts the probe; a busy worker or an empty queue changes nothing |
| IPort.Dispatcher.StartSend | lib/LightSymphonyiPort.js:21-38 | with a known address, the head task's line goes to port 10001 at that address and the worker is sending |
| IPort.Dispatcher.StartDiscovery | lib/LightSymphonyiPort.js:39-45 | with no address, a new open attempt with a pending timeout is recorded and the probe `00 01 00 F5` goes to port 30718 at the broadcast address |
| IPort.Dispatcher.DiscoveryReply | lib/LightSymphonyiPort.js:63-72 | only a reply equal to `YES` while discovering latches the attempt, closes it, makes the sender the address and sends the in-flight line there; any other datagram changes nothing |
| IPort.Dispatcher.DiscoveryError | lib/LightSymphonyiPort.js:74-82 | a socket error while discovering closes the attempt and completes the task with that error; the address stays unknown and nothing is sent |
| IPort.Dispatcher.DiscoveryTimeout | lib/LightSymphonyiPort.js:75-89 | a latched attempt ignores its timeout; the current attempt fails its task with DiscoverTimedOut; for an attempt that already failed on a socket error, the re-run error callback throws at the second `socket.close()`: the throw is recorded and no task completes again |
| IPort.Dispatcher.TimeoutFailsTask | lib/LightSymphonyiPort.js:77-80 | the timeout of the attempt the worker waits for completes its task with DiscoverTimedOut and frees the worker |
| IPort.Dispatcher.TimeoutCloseThrows | lib/LightSymphonyiPort.js:77-79 | the timeout of an attempt already failed by a socket error throws when it closes the closed socket: the throw is recorded for that task, which has already completed, and no callback, datagram or other state changes |
| IPort.Dispatcher.SendComplete | lib/LightSymphonyiPort.js:27-30 | the send finishing, with or without an error, starts the delay and keeps the error |
| IPort.Dispatcher.DelayElapsed | lib/LightSymphonyiPort.js:30-32 | after the delay, the in-flight task completes with the send's error, or none, and the worker is idle |
| Accessory.AreaKeyInjective | index.js:35 | distinct area numbers have distinct keys |
| Accessory.OnlyAreaZeroIsAll | index.js:80-83 | the key `area_0` belongs to area 0 and to no other number |
| Accessory.BrightnessAccepted | index.js:100-102 | a brightness is accepted exactly when the area is valid and 10 <= b <= 109; below 10 the iPort layer's own validation rejects intensity 0 |
| Accessory.AreaTableKeys | index.js:35-36 | the built table holds only keys of configured numbers |
| Accessory.AreaTableStores | index.js:25-36 | every configured area is stored under its number's key |
| Accessory.AreaTableFresh | index.js:25-32 | every stored area starts off with brightness 0, under its own number's key |
| Accessory.InitialTableValid | index.js:20-36 | the freshly built table satisfies the table invariant |
| Accessory.AfterAllOnValid | index.js:64-72 | switching all lights sets every area, area 0 included, and keeps the invariant |
| Accessory.AfterAreaOnFrame | index.js:77-79 | switching area n (n != 0) sets it and touches no area but area 0 |
| Accessory.AfterAreaOnValid | index.js:79-89 | after switching area n (n != 0), area 0 is the AND of all the others, so the invariant holds |
| Accessory.AfterBrightnessValid | index.js:103-104 | storing a brightness sets it and keeps the invariant |
| Accessory.AllOtherAreasOn | index.js:81-85 | the loop's `allOn` is true iff every area other than area 0 is on |
| Accessory.BuildAreas | index.js:20-36 | fails iff some configured area 0 is dimmable; otherwise it yields exactly the table `AreaTable(config)` |
| Accessory.Create | index.js:11-22 | construction fails iff some area 0 is dimmable; otherwise the table is `AreaTable(config)`, the invariant holds, and the iPort gets the configured address and the default broadcast address, with an empty queue, an idle worker, and nothing sent or completed |
| Accessory.LightSymphonyAccessory.constructor | index.js:16-18 | the accessory owns a fresh dispatcher with the configured address, the default broadcast address, an empty queue, an idle worker, and nothing sent or completed |
| Accessory.LightSymphonyAccessory.GetAreaOn | index.js:59-61 | returns the stored on flag of the area |
| Accessory.LightSymphonyAccessory.GetAreaBrightness | index.js:96-98 | returns the stored brightness of the area |
| Accessory.LightSymphonyAccessory.SetAreaOn | index.js:63-77 | area 0 queues `all_on`/`all_off`; another area queues `area_on n`/`area_off n` under the next task number or fails; nothing is sent or completed and the worker's state is unchanged; the table is unchanged until the callback |
| Accessory.LightSymphonyAccessory.SetAreaOnDone | index.js:65-92 | on error the table is unchanged; on success area 0 switches every area, another area is set and area 0 recomputed |
| Accessory.LightSymphonyAccessory.SwitchAllAreas | index.js:67-72 | the loop over all keys yields `AfterAllOn` and keeps the invariant |
| Accessory.LightSymphonyAccessory.SwitchArea | index.js:79-89 | sets area n, recomputes area 0 if present, and keeps the invariant |
| Accessory.LightSymphonyAccessory.SetAreaBrightness | index.js:100-102 | requests intensity `b / 10` for the area, failing as `setIntensity` fails; on success it queues the line under the next task number; nothing is sent or completed and the worker's state is unchanged; the table is unchanged until the callback |
| Accessory.LightSymphonyAccessory.SetAreaBrightnessDone | index.js:102-106 | on success area n stores the brightness; on error nothing changes; the invariant holds |
| Scenarios.PresetAddress | lib/LightSymphonyiPort.js:20-38 | with a preset address, `setIntensity(5, 7)` sends exactly `inten_5_7\r\n` to port 10001 there and its callback fires without error |
| Scenarios.ProbeBroadcast | lib/LightSymphonyiPort.js:84-86 | with no address, the first queued command starts a discovery whose only datagram is the probe to the broadcast address |
| Scenarios.Discovered | lib/LightSymphonyiPort.js:63-72 | a `NO` reply is ignored; a `YES` reply makes its sender the address, and the in-flight line goes there |
| Scenarios.AddressReused | lib/LightSymphonyiPort.js:36-38 | after a successful discovery the timeout reports nothing, and the next command goes to the learnt address without a new probe |
| Scenarios.SocketErrorFailsFirst | lib/LightSymphonyiPort.js:74-82 | with no address, a socket error during the first discovery completes the first task with that error, leaves the address unknown and frees the worker; only the probe was sent |
| Scenarios.ErrorThenTimeout | lib/LightSymphonyiPort.js:74-89 | after that error the next task probes again, so exactly two probes and no command line go out; the first attempt's timeout then throws at the second `socket.close()`, so the first task's callback is called only once |

## Left out

- UDP sockets: `createSocket`, `bind`, `setBroadcast`, `send` and `close` are not executed. Emitted datagrams are a log, and socket events are methods the environment calls.
- Timers: `DISCOVER_TIMEOUT` (1000 ms) and `COMMAND_DELAY` (500 ms) are events that fire (`DiscoveryTimeout`, `DelayElapsed`), not durations. The order of events is chosen by whoever calls the methods.
- IPort.Dispatcher.TimeoutCloseThrows: the uncaught exception is recorded in `closeThrows`, and the dispatcher goes on accepting events. What the Node process does after an uncaught exception in a timer is not modelled. By default it exits.
- IPort.Dispatcher.DiscoveryTimeout: its third case is the throw of `TimeoutCloseThrows`, with the same limitation.
- Scenarios.ErrorThenTimeout: shows the throw as a record in `closeThrows`. It does not show the process ending.
- Logging (`this.log`) is not modelled, nor the text of error messages. Errors are structured values: `InvalidArea`, `InvalidIntensity`, `DiscoverTimedOut`, `SocketError`.
- HomeKit is not modelled: `Service`, `Characteristic`, `updateCharacteristic`, `getServices`, the serial number and `registerAccessory`. The table entries keep no service object. Area `type` and `name` are only stored.
- Each handler's callback is not modelled as a closure. The callback body is the method `SetAreaOnDone` / `SetAreaBrightnessDone`, which takes the command's outcome as a parameter.
- Numbers are integers. JavaScript's non-integer, NaN and exponent-form values are not modelled. Area numbers are `int`. Brightness is `nat`, so `Math.trunc(b / 10)` is natural division.
- The order in which `for ... in` visits keys is not modelled. The loops pick keys in any order, and their results do not depend on it.
- Accessory.LightSymphonyAccessory.GetAreaOn, GetAreaBrightness, SetAreaOnDone, SetAreaBrightnessDone: these require that the area's key is in the table. In the source, a missing key makes the property access throw. HomeKit only binds handlers for configured areas.
- IPort.Dispatcher.DiscoveryTimeout: requires that the attempt's timer is still pending. A timer fires only once.
- IPort.Dispatcher.SendComplete, IPort.Dispatcher.DelayElapsed: require the phase in which the event can occur, a send in progress or a delay running.
