# Automation IO BLE peripheral — a Dafny model

This project models the core of an mbed OS BLE peripheral that exposes the
Bluetooth SIG Automation IO service (0x1815). The service has three one-byte
Digital characteristics (0x2A56):
- button state (read, notify);
- button colour (read, notify);
- LED state (write-only).

Each characteristic carries a Characteristic User Description descriptor
(0x2901, Bluetooth Core Specification Vol 3, Part G, section 3.3.3.2).

Two components are modelled:

- `DigitalIOService` (source/DigitalIO.h). This is the service table that the
  constructor registers with the GATT server, plus the two one-byte writers and
  the LED handle getter. The GATT server is a class holding a map from handle
  to value. It also keeps the list of registered tables and the sequence of
  pushed writes.
- `DigitalIOdemo` (source/main.cpp). This is the controller that owns:
  - the three `DigitalOut` levels (`led1`, `led3`, `actuatedLed`), kept as 0/1;
  - the connected flag `cState`;
  - the service pointer, `null` until initialisation succeeds;
  - the set of attached edge handlers;
  - the bounded FIFO of deferred tasks.

  Its methods mirror the source's handlers. The calls it makes on its
  collaborators (service creation, `fall`/`rise` attachment,
  `setAdvertisingParameters`, `setAdvertisingPayload`, `startAdvertising`) are
  recorded in order in `calls`. Each serial message is recorded as a tag in
  `log`.

Modules:
- `Gatt` (gatt.dfy): the GATT server.
- `DigitalIO` (digital_io.dfy): the service.
- `Events` (events.dfy): the bounded FIFO as functions, and lemmas about runs
  of posts and drains.
- `Controller` (controller.dfy): the controller class and the functions that
  specify it.
- `Scenarios` (scenarios.dfy): methods that build a fresh server and
  controller, drive them through a whole run, and state what the run ends
  with.

Modelling choices:
- GAP call results are inputs (`AdvResults`).
- The value handles the GATT server allocates are inputs (`ValueHandles`,
  required distinct).
- Writing a byte to a `DigitalOut` sets the level to 1 when the byte is
  nonzero (`LevelOf`). `when_data_written` compares the level with the raw
  byte, so a byte above 1 always counts as a change
  (`ByteAboveOneCountsAsChange`).
- The queue holds `capacity` tasks. `EventQueue::call` results are ignored in
  the source, so a full queue drops the task silently (`Events.Post`).
- The periodic blink is one explicit step (`Blink`).
- An interrupt is one explicit step (`FireEdge`). It runs the handler attached
  to that edge, if any.
- A turn of the queue's worker is one explicit step (`Dispatch`).

Further behaviour the model keeps as the source has it:
- The connection state is the boolean `cState`.
- Button 1's rise and button 2's fall each post a writer and then a message
  task; the other two edges post only a writer.
- The source keeps no drop counter. `Events.Simulate` counts drops only as an
  analysis device.
- A disconnection clears `cState` and calls `startAdvertising` once, whatever
  it returns.

## Model

| member | source | states |
|---|---|---|
| Gatt.InitialValues | source/DigitalIO.h:62-64 | registering a table stores each characteristic's initial value under its value handle; with distinct handles every characteristic's value is found |
| Gatt.GattServer.AddService | source/DigitalIO.h:64 | `addService` appends the table and stores its initial values, pushing nothing |
| Gatt.GattServer.Write | source/DigitalIO.h:67-73 | `write` on a known handle stores the value and pushes it, even when it equals the stored value; an unknown handle changes nothing |
| DigitalIO.CString | source/DigitalIO.h:29-31 | a description buffer holds the label's characters and then a NUL, one byte longer than the label |
| DigitalIO.ServiceTable | source/DigitalIO.h:26-64 | the table has service UUID 0x1815 and exactly three characteristics, all 0x2A56, in the order buttonState, buttonColour, ledState; the first two are read-only with NOTIFY, the last is write-only with no extra property; initial values are the constructor arguments; each has one 0x2901 descriptor of maximum length 20, variable length, holding the NUL-terminated labels "Button State", "Button Colour" and "LED State" (13, 14 and 10 bytes) |
| DigitalIO.DigitalIOService.constructor | source/DigitalIO.h:33-65 | registers exactly that table once and stores the three initial values; the three handles are then known to the server |
| DigitalIO.DigitalIOService.UpdateButtonState | source/DigitalIO.h:67-69 | writes exactly the one byte given to the button state value handle and pushes it; no other handle changes |
| DigitalIO.DigitalIOService.UpdateButtonColour | source/DigitalIO.h:71-73 | writes exactly the one byte given to the button colour value handle and pushes it; no other handle changes |
| DigitalIO.DigitalIOService.GetLEDValueHandle | source/DigitalIO.h:75-78 | a read-only accessor returning the value handle of the table's one write-only characteristic, distinct from both button handles |
| Events.Post | source/main.cpp:177-179 | posting keeps the queued tasks at the front in order and adds at most the posted task behind them; it is accepted exactly when a slot is free, otherwise dropped with no error, so a queue within its capacity stays within it |
| Events.PostAllKeepsOrder | source/main.cpp:181-184 | posting several tasks keeps what was queued, appends the accepted ones in order, drops exactly those beyond the capacity, and never exceeds it |
| Events.NoLossNoDuplication | source/main.cpp:57-59 | over any interleaving of posts and worker turns, every submitted task is taken, still queued or counted as dropped; with no drop, the tasks taken followed by those still queued are every submitted task exactly once, in submission order |
| Controller.AdvertisingCalls | source/main.cpp:99-126 | the calls are parameters, payload, start, in that order, each at most once and stopping at the first failure: parameters are always set; the payload is set exactly when the parameters succeeded; `startAdvertising` is called exactly when both succeeded |
| Controller.AdvertisingLog | source/main.cpp:104-126 | nothing is logged exactly when all three calls succeed; otherwise one message naming the failing call, which is the last call made |
| Controller.InitCalls | source/main.cpp:64-83 | an initialisation error makes no call at all; success starts with the creation of the service |
| Controller.InitCallsShape | source/main.cpp:74-82 | on success: the service, then the four attachments in source order, then only GAP calls |
| Controller.InitCreatesServiceOnce | source/main.cpp:74 | the service is created at most once and before anything else |
| Controller.InitAttachesBeforeAdvertising | source/main.cpp:76-82 | on success all four edges are attached, and every attachment precedes every advertising call |
| Controller.InitStartsAdvertisingAtMostOnce | source/main.cpp:74-82 | initialisation starts advertising once if the parameters and payload were accepted, and never otherwise |
| Controller.EdgeTasks | source/main.cpp:177-195 | each edge posts one writer for its own button's characteristic, whose value is the logical "pressed" (button 1 on fall, button 2 on rise); the message task follows exactly on the edge that writes false |
| Controller.LedWrite | source/main.cpp:134-143 | a write is discarded exactly when the handle is not the LED value handle or the length is not 1; it is "still" exactly when the byte equals the level; otherwise the level becomes that of the byte |
| Controller.ByteAboveOneCountsAsChange | source/main.cpp:137-138 | a byte above 1 always counts as a change and leaves the LED high |
| Controller.WorkerSeesOneWritePerEdge | source/main.cpp:177-195 | for any interleaving of edges and worker turns without a drop, the writer tasks taken or still queued are exactly one per edge, in edge order, each carrying that edge's logical value |
| Controller.WorkerRunsOneWritePerEdge | source/main.cpp:177-195 | a run without a drop that ends with the queue drained has run exactly one writer per edge, in edge order |
| Controller.DigitalIOdemo.constructor | source/main.cpp:31-41 | all three outputs start high, not connected, no service, nothing attached or queued |
| Controller.DigitalIOdemo.OnInitComplete | source/main.cpp:64-83 | on error only the failure is logged and nothing else changes; on success the service with initial values (0, 0, 1) is created and registered, all four edges are attached and the advertising setup runs; the invariant that no queued task can find the service missing is kept |
| Controller.DigitalIOdemo.InitSucceeded | source/main.cpp:74-82 | the successful branch makes exactly the calls of a successful initialisation and logs what the advertising setup logs |
| Controller.DigitalIOdemo.CreateServiceAndAttach | source/main.cpp:74-80 | the service is created before the four handlers are attached |
| Controller.DigitalIOdemo.AttachHandlers | source/main.cpp:76-80 | attaches the four handlers in source order |
| Controller.DigitalIOdemo.AttachHandler | source/main.cpp:76 | attaching one handler records it and adds it to the attached set |
| Controller.DigitalIOdemo.StartAdvertising | source/main.cpp:85-127 | makes exactly the advertising calls and logs the failure message, stopping at the first failing call without retry |
| Controller.DigitalIOdemo.WhenDataWritten | source/main.cpp:134-143 | the LED output and the log change exactly as the write filter says; nothing else changes |
| Controller.DigitalIOdemo.Blink | source/main.cpp:197-199 | LED1 toggles exactly when not connected; nothing else changes |
| Controller.DigitalIOdemo.OnConnectionComplete | source/main.cpp:220-226 | connected, LED1 high, LED3 low, the actuated LED unchanged |
| Controller.DigitalIOdemo.OnDisconnectionComplete | source/main.cpp:228-234 | exactly one `startAdvertising` call whatever its result, LED3 high, not connected; LED1 and the actuated LED unchanged |
| Controller.DigitalIOdemo.Enqueue | source/main.cpp:178 | one `call`: the task is appended if a slot is free, dropped otherwise |
| Controller.DigitalIOdemo.Button1Pressed | source/main.cpp:177-179 | posts `updateButtonState(true)`; only the queue changes |
| Controller.DigitalIOdemo.Button1Released | source/main.cpp:181-184 | posts `updateButtonState(false)` then message 1; only the queue changes |
| Controller.DigitalIOdemo.Button2Pressed | source/main.cpp:186-191 | posts `updateButtonColour(false)` then message 2; only the queue changes |
| Controller.DigitalIOdemo.Button2Released | source/main.cpp:193-195 | posts `updateButtonColour(true)`; only the queue changes |
| Controller.DigitalIOdemo.FireEdge | source/main.cpp:76-80 | an edge runs its handler only if that handler was attached; only the queue changes |
| Controller.DigitalIOdemo.Dispatch | source/main.cpp:202-205 | the worker (`dispatch_forever`, source/main.cpp:59) removes the front task and runs it: a writer runs `updateButtonState` or `updateButtonColour` (source/DigitalIO.h:67-73), writing its byte through the service, which exists; a message task only logs the button's number |
| Scenarios.Booted | source/main.cpp:64-83 | after a successful initialisation: service present with values (0, 0, 1), all edges attached, queue empty, outputs high, not connected |
| Scenarios.InitFailure | source/main.cpp:64-68 | a failed initialisation leaves no service, no handler and no GAP call |
| Scenarios.ConnectThenDisconnect | source/main.cpp:220-234 | initialisation, connection and disconnection end disconnected with LED3 high; advertising was started twice when the initial setup reached the start call, once otherwise |
| Scenarios.BlinkTwice | source/main.cpp:197-199 | connected: two blinks leave LED1 fixed; disconnected: one blink toggles it and the second restores it |
| Scenarios.LedWriteThenRepeat | source/main.cpp:136-141 | writing 0 switches the high output off and logs "now"; writing 0 again changes nothing and logs "still" |
| Scenarios.LedWritesDiscarded | source/main.cpp:136 | a two-byte write and a write to another handle are discarded without a log message |
| Scenarios.PressReleaseButton1 | source/main.cpp:177-184 | a press and release of button 1 push 1 then 0 to the button state handle, then print message 1 |
| Scenarios.PressButton1Twice | source/main.cpp:177-179 | two falls of button 1 push `[1]` twice: a write equal to the stored value is pushed again |
| Scenarios.PressBothButtons | source/main.cpp:186-195 | button 1's fall and button 2's rise both write 1, each to its own characteristic, with no message |
| Scenarios.EdgesAndFullQueue | source/main.cpp:181-184 | an edge before initialisation posts nothing; with one free slot, releasing button 1 keeps the write and drops the message |

## Left out

- The BLE stack itself is not modelled: `BLE::init`, `processEvents`, the GAP, the GATT server's handle allocation and `AdvertisingDataBuilder` (flags, service list, name "ButtonLED", the 1000 ms interval). Their results are inputs, and the GAP calls are recorded without their arguments.
- `addService` can fail; the source ignores its result, and the model treats registration as always succeeding.
- `start`, `main` and `schedule_ble_events` only wire callbacks together. The callbacks they register become the controller's methods.
- `when_update_enabled`, `when_update_disabled` and `when_confirmation_received` only print. `print_mac_address` and the text of each message are left out. Messages are kept as log tags.
- The `EventQueue` implementation is left out: timing, `call_every(500ms)`, `dispatch_forever`, and its memory pool of 10 event slots shared with the blink timer and the stack's events. The model's queue has an abstract capacity and holds only the button tasks.
- Interrupt concurrency is left out. Each interrupt and each worker turn is one atomic step.
- Heap ownership of the `GattAttribute` descriptors created with `new`, and the pin classes beyond a 0/1 level, are left out.
- A task posted by a handler captures the service pointer of that moment. The model's tasks run against the controller's current service. This is the same service, because `OnInitComplete` requires that no service exists yet: the stack reports initialisation once.
- Controller.DigitalIOdemo.WhenDataWritten: requires that the service exists. The source dereferences the pointer without a check. The stack can only report a write to a handle of a registered table.
- Gatt.GattServer.Write: how the stack refuses an unknown handle is foreign code. The model returns `false` and changes nothing.
