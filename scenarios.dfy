/** Whole runs of the peripheral, driven the way the BLE stack, the pins and
    the event queue drive it, and what each run ends with. Each method builds
    a fresh GATT server and controller, so it changes nothing that exists
    before it is called. */
module Scenarios {
  import opened Gatt
  import opened DigitalIO
  import opened Events
  import opened Controller

  /** A fresh server and controller after a successful initialisation */
  method Booted(capacity: nat, adv: AdvResults, handles: ValueHandles) returns (server: GattServer, demo: DigitalIOdemo)
    requires handles.Distinct()
    ensures fresh(server) && fresh(demo) && demo.server == server && demo.capacity == capacity
    ensures demo.Valid() && demo.service != null && demo.service.handles == handles
    ensures demo.attached == AllEdges && demo.queue == [] && !demo.cState
    ensures demo.led1 == 1 && demo.led3 == 1 && demo.actuatedLed == 1
    ensures server.values == map[handles.buttonState := [0], handles.buttonColour := [0], handles.ledState := [1]]
    ensures server.pushes == []
    ensures demo.calls == InitCalls(true, adv) && demo.log == AdvertisingLog(adv)
  {
    server := new GattServer();
    demo := new DigitalIOdemo(server, capacity);
    demo.OnInitComplete(true, adv, handles);
  }

  /** A failed initialisation creates no service, attaches no edge handler
      and makes no GAP call; only the failure is logged */
  method InitFailure(capacity: nat, adv: AdvResults, handles: ValueHandles)
    returns (serviceCreated: bool, handlers: set<EdgeSource>, calls: seq<Call>, log: seq<LogTag>)
    requires handles.Distinct()
    ensures !serviceCreated && handlers == {} && calls == [] && log == [InitFailed]
  {
    var server := new GattServer();
    var demo := new DigitalIOdemo(server, capacity);
    demo.OnInitComplete(false, adv, handles);
    serviceCreated := demo.service != null;
    handlers := demo.attached;
    calls := demo.calls;
    log := demo.log;
  }

  /** Initialisation, a connection, then a disconnection: the peripheral ends
      disconnected with LED3 high, and advertising has been started twice if
      the advertising setup got as far as starting, once otherwise (only the
      restart after the disconnection) */
  method ConnectThenDisconnect(capacity: nat, adv: AdvResults, handles: ValueHandles)
    returns (connected: bool, led1: Level, led3: Level, starts: nat)
    requires handles.Distinct()
    ensures !connected && led1 == 1 && led3 == 1
    ensures starts == if adv.parametersOk && adv.payloadOk then 2 else 1
  {
    var server, demo := Booted(capacity, adv, handles);
    InitStartsAdvertisingAtMostOnce(true, adv);
    demo.OnConnectionComplete();
    demo.OnDisconnectionComplete();
    connected, led1, led3 := demo.cState, demo.led1, demo.led3;
    starts := multiset(demo.calls)[GapStart];
  }

  /** Two blinks: while connected LED1 never moves; while disconnected it
      toggles on each blink, so the second restores it */
  method BlinkTwice(connected: bool) returns (before: Level, once: Level, twice: Level)
    ensures connected ==> once == before && twice == before
    ensures !connected ==> once != before && twice == before
  {
    var server := new GattServer();
    var demo := new DigitalIOdemo(server, 1);
    if connected {
      demo.OnConnectionComplete();
    }
    before := demo.led1;
    demo.Blink();
    once := demo.led1;
    demo.Blink();
    twice := demo.led1;
  }

  /** After initialisation the LED output is high: writing 0 switches it
      off, and writing 0 again is accepted but reported as "still" off */
  method LedWriteThenRepeat(adv: AdvResults, handles: ValueHandles)
    returns (afterOff: Level, afterRepeat: Level, ledLog: seq<LogTag>)
    requires handles.Distinct()
    ensures afterOff == 0 && afterRepeat == 0
    ensures ledLog == [LedNow(false), LedStill(false)]
  {
    var server, demo := Booted(1, adv, handles);
    var start := |demo.log|;
    demo.WhenDataWritten(handles.ledState, [0]);
    afterOff := demo.actuatedLed;
    demo.WhenDataWritten(handles.ledState, [0]);
    afterRepeat := demo.actuatedLed;
    ledLog := demo.log[start..];
  }

  /** A two-byte write to the LED handle and a one-byte write to another
      handle are both discarded: the output stays high and nothing is logged */
  method LedWritesDiscarded(adv: AdvResults, handles: ValueHandles)
    returns (afterLong: Level, afterOther: Level, logGrew: bool)
    requires handles.Distinct()
    ensures afterLong == 1 && afterOther == 1 && !logGrew
  {
    var server, demo := Booted(1, adv, handles);
    var start := |demo.log|;
    demo.WhenDataWritten(handles.ledState, [0, 0]);
    afterLong := demo.actuatedLed;
    demo.WhenDataWritten(handles.buttonState, [0]);
    afterOther := demo.actuatedLed;
    logGrew := |demo.log| != start;
  }

  /** A press and release of button 1 followed by three queue drains: both
      values are pushed to the button state handle in order, and the message
      for button 1 is printed last */
  method PressReleaseButton1(capacity: nat, adv: AdvResults, handles: ValueHandles)
    returns (stored: seq<byte>, pushes: seq<Push>, lastLog: LogTag, left: seq<Task>)
    requires handles.Distinct() && capacity >= 3
    ensures stored == [0]
    ensures pushes == [Push(handles.buttonState, [1]), Push(handles.buttonState, [0])]
    ensures lastLog == ButtonPressed(1) && left == []
  {
    var server, demo := Booted(capacity, adv, handles);
    demo.FireEdge(EdgeSource(Button1, Fall));
    PostAllKeepsOrder([], capacity, [UpdateButtonState(true)]);
    demo.FireEdge(EdgeSource(Button1, Rise));
    PostAllKeepsOrder([UpdateButtonState(true)], capacity, [UpdateButtonState(false), ButtonMessage(1)]);
    assert demo.queue == [UpdateButtonState(true), UpdateButtonState(false), ButtonMessage(1)];
    demo.Dispatch();
    assert server.pushes == [Push(handles.buttonState, [1])];
    demo.Dispatch();
    assert server.pushes == [Push(handles.buttonState, [1]), Push(handles.buttonState, [0])];
    assert demo.queue == [ButtonMessage(1)];
    demo.Dispatch();
    stored := server.values[handles.buttonState];
    pushes := server.pushes;
    lastLog := demo.log[|demo.log| - 1];
    left := demo.queue;
  }

  /** Two falling edges of button 1 (a bounce): the second write stores the
      value already there, and it is pushed again all the same */
  method PressButton1Twice(capacity: nat, adv: AdvResults, handles: ValueHandles)
    returns (stored: seq<byte>, pushes: seq<Push>)
    requires handles.Distinct() && capacity >= 2
    ensures stored == [1]
    ensures pushes == [Push(handles.buttonState, [1]), Push(handles.buttonState, [1])]
  {
    var server, demo := Booted(capacity, adv, handles);
    demo.FireEdge(EdgeSource(Button1, Fall));
    PostAllKeepsOrder([], capacity, [UpdateButtonState(true)]);
    demo.FireEdge(EdgeSource(Button1, Fall));
    PostAllKeepsOrder([UpdateButtonState(true)], capacity, [UpdateButtonState(true)]);
    assert demo.queue == [UpdateButtonState(true), UpdateButtonState(true)];
    demo.Dispatch();
    assert server.pushes == [Push(handles.buttonState, [1])];
    demo.Dispatch();
    stored := server.values[handles.buttonState];
    pushes := server.pushes;
  }

  /** Button 1's falling edge and button 2's rising edge are both "pressed":
      each writes 1 to its own characteristic, and neither prints a message */
  method PressBothButtons(capacity: nat, adv: AdvResults, handles: ValueHandles)
    returns (buttonState: seq<byte>, buttonColour: seq<byte>, logGrew: bool)
    requires handles.Distinct() && capacity >= 2
    ensures buttonState == [1] && buttonColour == [1] && !logGrew
  {
    var server, demo := Booted(capacity, adv, handles);
    var start := |demo.log|;
    demo.FireEdge(EdgeSource(Button1, Fall));
    PostAllKeepsOrder([], capacity, [UpdateButtonState(true)]);
    demo.FireEdge(EdgeSource(Button2, Rise));
    PostAllKeepsOrder([UpdateButtonState(true)], capacity, [UpdateButtonColour(true)]);
    assert demo.queue == [UpdateButtonState(true), UpdateButtonColour(true)];
    demo.Dispatch();
    demo.Dispatch();
    buttonState := server.values[handles.buttonState];
    buttonColour := server.values[handles.buttonColour];
    logGrew := |demo.log| != start;
  }

  /** An edge before initialisation reaches no handler, and an edge that
      finds the queue full loses its tasks without any error: with one free
      slot, releasing button 1 keeps the write and drops the message */
  method EdgesAndFullQueue(adv: AdvResults, handles: ValueHandles)
    returns (beforeInit: seq<Task>, afterRelease: seq<Task>)
    requires handles.Distinct()
    ensures beforeInit == []
    ensures afterRelease == [UpdateButtonState(false)]
  {
    var server := new GattServer();
    var demo := new DigitalIOdemo(server, 1);
    demo.FireEdge(EdgeSource(Button1, Rise));
    beforeInit := demo.queue;
    demo.OnInitComplete(true, adv, handles);
    demo.FireEdge(EdgeSource(Button1, Rise));
    PostAllKeepsOrder([], 1, [UpdateButtonState(false), ButtonMessage(1)]);
    afterRelease := demo.queue;
  }
}
