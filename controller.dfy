/** The peripheral controller `DigitalIOdemo`: it owns the three output
    levels, the connected flag and the Automation IO service, reacts to the
    BLE stack's callbacks (initialisation complete, data written, connection
    and disconnection complete), and turns button edges into deferred tasks
    on a bounded event queue. The BLE stack, the interrupt pins and the queue
    implementation are collaborators: their results are inputs, and the calls
    made on them are recorded in order. */
module Controller {
  import opened Gatt
  import opened DigitalIO
  import opened Events

  /** The level of a `DigitalOut` pin */
  type Level = x: int | 0 <= x <= 1

  /** Assigning a value to a `DigitalOut`: any nonzero value drives the pin high */
  function LevelOf(b: byte): (l: Level)
    ensures l == 1 <==> b != 0
  {
    if b == 0 then 0 else 1
  }

  /** The conversion of a `bool` argument to the `uint8_t` parameter of the service's writers */
  function ByteOf(v: bool): (b: byte)
    ensures b == 0 <==> !v
    ensures b <= 1
  {
    if v then 1 else 0
  }

  datatype Button = Button1 | Button2
  datatype Edge = Fall | Rise
  /** One interrupt source: an edge of one button's pin */
  datatype EdgeSource = EdgeSource(button: Button, edge: Edge)

  const AllEdges: set<EdgeSource> :=
    {EdgeSource(Button1, Fall), EdgeSource(Button1, Rise), EdgeSource(Button2, Fall), EdgeSource(Button2, Rise)}

  /** A deferred task: a call of one of the service's writers with a
      captured argument, or the static message printer */
  datatype Task = UpdateButtonState(state: bool) | UpdateButtonColour(colour: bool) | ButtonMessage(number: byte)
  {
    /** The value a writer task writes */
    function Value(): bool
      requires !ButtonMessage?
    {
      if UpdateButtonState? then state else colour
    }
  }

  /** The calls the controller makes on its collaborators */
  datatype Call =
    | CreateService                     // `new DigitalIOService(...)`, which registers the table
    | Attach(source: EdgeSource)        // `InterruptIn::fall` / `rise`
    | GapSetParameters
    | GapSetPayload
    | GapStart
  {
    predicate IsGap() {
      GapSetParameters? || GapSetPayload? || GapStart?
    }
  }

  /** What each GAP call of the advertising setup returns: true for `BLE_ERROR_NONE` */
  datatype AdvResults = AdvResults(parametersOk: bool, payloadOk: bool, startOk: bool)

  /** The serial log, one tag per message printed */
  datatype LogTag =
    | InitFailed
    | AdvertisingFailed(call: Call)
    | LedNow(on: bool)
    | LedStill(on: bool)
    | NowConnected(ledOn: bool)
    | NowDisconnected(ledOn: bool)
    | ButtonPressed(number: byte)

  /** The GAP calls one run of the advertising setup makes: each call is made
      only if every call before it succeeded, and advertising is started at
      most once */
  function AdvertisingCalls(r: AdvResults): (calls: seq<Call>)
    ensures |calls| >= 1 && calls[0] == GapSetParameters
    // parameters, payload, start: always in that order, each at most once
    ensures |calls| <= 3 && calls == [GapSetParameters, GapSetPayload, GapStart][..|calls|]
    ensures forall c :: c in calls ==> c.IsGap()
    ensures GapSetPayload in calls <==> r.parametersOk
    ensures GapStart in calls <==> r.parametersOk && r.payloadOk
    ensures multiset(calls)[GapSetParameters] == 1
    ensures multiset(calls)[GapStart] <= 1
  {
    [GapSetParameters] +
    if !r.parametersOk then []
    else [GapSetPayload] + if !r.payloadOk then [] else [GapStart]
  }

  /** What the advertising setup logs: nothing if every call succeeded,
      otherwise the one call that failed, which is the last call made */
  function AdvertisingLog(r: AdvResults): (log: seq<LogTag>)
    ensures log == [] <==> r.parametersOk && r.payloadOk && r.startOk
    ensures |log| <= 1
    ensures log != [] ==> log[0] == AdvertisingFailed(AdvertisingCalls(r)[|AdvertisingCalls(r)| - 1])
  {
    if !r.parametersOk then [AdvertisingFailed(GapSetParameters)]
    else if !r.payloadOk then [AdvertisingFailed(GapSetPayload)]
    else if !r.startOk then [AdvertisingFailed(GapStart)]
    else []
  }

  /** The four edge handlers, in the order they are attached */
  const Attachments: seq<Call> :=
    [Attach(EdgeSource(Button1, Fall)), Attach(EdgeSource(Button1, Rise)),
     Attach(EdgeSource(Button2, Fall)), Attach(EdgeSource(Button2, Rise))]

  /** The calls made when initialisation completes: none on error; otherwise
      the service first, then all four edge handlers, and only then the
      advertising setup */
  function InitCalls(ok: bool, r: AdvResults): (calls: seq<Call>)
    ensures !ok ==> calls == []
    ensures ok ==> |calls| >= 6 && calls[0] == CreateService
  {
    if !ok then [] else [CreateService] + Attachments + AdvertisingCalls(r)
  }

  /** The shape of a successful initialisation's calls: the service, then
      the four attachments, then nothing but GAP calls */
  lemma InitCallsShape(r: AdvResults)
    ensures var calls := InitCalls(true, r);
      calls[0] == CreateService &&
      (forall k :: 1 <= k < 5 ==> calls[k] == Attachments[k - 1]) &&
      (forall k :: 5 <= k < |calls| ==> calls[k].IsGap())
  {
    var calls := InitCalls(true, r);
    var adv := AdvertisingCalls(r);
    forall k | 5 <= k < |calls| ensures calls[k].IsGap() {
      assert calls[k] == adv[k - 5];
    }
  }

  /** The service is created once, before anything else */
  lemma InitCreatesServiceOnce(ok: bool, r: AdvResults)
    ensures var calls := InitCalls(ok, r);
      forall i :: 0 < i < |calls| ==> calls[i] != CreateService
  {
    if ok {
      InitCallsShape(r);
    }
  }

  /** On success every edge handler is attached, and every attachment precedes
      every GAP call: no button task can be posted before the service exists,
      and advertising only starts once all four handlers are in place */
  lemma InitAttachesBeforeAdvertising(ok: bool, r: AdvResults)
    ensures var calls := InitCalls(ok, r);
      (ok ==> forall s :: s in AllEdges ==> Attach(s) in calls) &&
      (forall i, j :: 0 <= i < |calls| && 0 <= j < |calls| && calls[i].Attach? && calls[j].IsGap() ==> i < j)
  {
    if ok {
      InitCallsShape(r);
      var calls := InitCalls(ok, r);
      forall s | s in AllEdges ensures Attach(s) in calls {
        assert Attach(s) in Attachments;
      }
    }
  }

  /** Initialisation starts advertising once if the parameters and the
      payload were accepted, and not at all otherwise */
  lemma InitStartsAdvertisingAtMostOnce(ok: bool, r: AdvResults)
    ensures multiset(InitCalls(ok, r))[GapStart] == if ok && r.parametersOk && r.payloadOk then 1 else 0
  {
    if ok {
      var calls := InitCalls(ok, r);
      assert calls == ([CreateService] + Attachments) + AdvertisingCalls(r);
      assert multiset([CreateService] + Attachments)[GapStart] == 0;
    }
  }

  /** The logical value an edge writes: button 1 is pressed on its falling
      edge, button 2 is wired the other way round and is pressed on its rising edge */
  predicate Pressed(s: EdgeSource) {
    (s.button == Button1) == (s.edge == Fall)
  }

  function ButtonNumber(b: Button): byte {
    if b == Button1 then 1 else 2
  }

  /** The tasks one edge handler posts, in order: first the writer for that
      button's characteristic with the logical value, then, on the edge that
      writes false, the button's message */
  function EdgeTasks(s: EdgeSource): (ts: seq<Task>)
    ensures 1 <= |ts| <= 2
    ensures s.button == Button1 ==> ts[0].UpdateButtonState?
    ensures s.button == Button2 ==> ts[0].UpdateButtonColour?
    ensures !ts[0].ButtonMessage? && ts[0].Value() == Pressed(s)
    ensures |ts| == 2 <==> !Pressed(s)
    ensures |ts| == 2 ==> ts[1] == ButtonMessage(ButtonNumber(s.button))
  {
    match s
    case EdgeSource(Button1, Fall) => [UpdateButtonState(true)]
    case EdgeSource(Button1, Rise) => [UpdateButtonState(false), ButtonMessage(1)]
    case EdgeSource(Button2, Fall) => [UpdateButtonColour(false), ButtonMessage(2)]
    case EdgeSource(Button2, Rise) => [UpdateButtonColour(true)]
  }

  /** How an inbound write to the LED characteristic is treated */
  datatype LedUpdate = Ignored | Changed(level: Level) | Still

  /** The write filter: only a one-byte write to the LED value handle counts;
      it changes the output when the byte differs from the current level
      (the byte is compared as written, so any byte above 1 counts as a change),
      and is reported as "still" otherwise */
  function LedWrite(current: Level, ledHandle: Handle, h: Handle, data: seq<byte>): (u: LedUpdate)
    ensures u == Ignored <==> h != ledHandle || |data| != 1
    ensures u == Still <==> h == ledHandle && |data| == 1 && data[0] as int == current
    ensures u.Changed? ==> u.level == LevelOf(data[0]) && data[0] as int != current
  {
    if h == ledHandle && |data| == 1 then
      if data[0] as int != current then Changed(LevelOf(data[0])) else Still
    else Ignored
  }

  /** The level is compared with the raw byte, so a byte above 1 is always
      treated as a change, even when the output is already high and stays high */
  lemma ByteAboveOneCountsAsChange(current: Level, ledHandle: Handle, b: byte)
    requires b > 1
    ensures LedWrite(current, ledHandle, ledHandle, [b]) == Changed(1)
  {
  }

  /** What drives the queue: an interrupt on one edge, or a turn of the worker */
  datatype Input = Interrupt(source: EdgeSource) | WorkerTurn

  function ToSteps(inputs: seq<Input>): (steps: seq<Step<Task>>)
    ensures |steps| == |inputs|
  {
    if inputs == [] then []
    else [if inputs[0].Interrupt? then Submit(EdgeTasks(inputs[0].source)) else Drain] + ToSteps(inputs[1..])
  }

  /** The interrupts among the inputs, in order */
  function Interrupts(inputs: seq<Input>): seq<EdgeSource> {
    if inputs == [] then []
    else (if inputs[0].Interrupt? then [inputs[0].source] else []) + Interrupts(inputs[1..])
  }

  /** The writer tasks among a sequence of tasks, in order */
  function Writers(ts: seq<Task>): seq<Task> {
    if ts == [] then []
    else (if ts[0].ButtonMessage? then [] else [ts[0]]) + Writers(ts[1..])
  }

  /** The one writer task each edge stands for */
  function LogicalWrites(edges: seq<EdgeSource>): (ws: seq<Task>)
    ensures |ws| == |edges|
  {
    if edges == [] then [] else [EdgeTasks(edges[0])[0]] + LogicalWrites(edges[1..])
  }

  lemma {:induction false} WritersDistribute(a: seq<Task>, b: seq<Task>)
    ensures Writers(a + b) == Writers(a) + Writers(b)
  {
    if a == [] {
      assert a + b == b;
    } else {
      assert (a + b)[0] == a[0] && (a + b)[1..] == a[1..] + b;
      WritersDistribute(a[1..], b);
    }
  }

  lemma {:induction false} SubmittedWriters(inputs: seq<Input>)
    ensures Writers(Submitted(ToSteps(inputs))) == LogicalWrites(Interrupts(inputs))
  {
    if inputs != [] {
      var steps := ToSteps(inputs);
      var rest := inputs[1..];
      assert steps[1..] == ToSteps(rest);
      var now := if steps[0].Submit? then steps[0].tasks else [];
      assert Submitted(steps) == now + Submitted(ToSteps(rest));
      WritersDistribute(now, Submitted(ToSteps(rest)));
      SubmittedWriters(rest);
      if inputs[0].Interrupt? {
        var src := inputs[0].source;
        var ts := EdgeTasks(src);
        assert now == ts;
        assert Writers(ts) == [ts[0]] by {
          if |ts| == 2 {
            assert ts[1..][1..] == [];
            assert Writers(ts[1..][1..]) == [];
          } else {
            assert ts[1..] == [];
          }
        }
        var edges := Interrupts(inputs);
        assert edges == [src] + Interrupts(rest);
        assert edges[0] == src && edges[1..] == Interrupts(rest);
      } else {
        assert now == [];
        assert Interrupts(inputs) == Interrupts(rest);
      }
    }
  }

  /** However interrupts and worker turns interleave, as long as the queue
      never overflows, the writer tasks taken by the worker followed by those
      still queued are exactly one per edge, in the order the edges happened,
      each carrying that edge's logical value */
  lemma WorkerSeesOneWritePerEdge(capacity: nat, inputs: seq<Input>)
    ensures var r := Simulate(capacity, Run([], [], 0), ToSteps(inputs));
      r.dropped == 0 ==> Writers(r.observed + r.queue) == LogicalWrites(Interrupts(inputs))
    ensures forall i :: 0 <= i < |Interrupts(inputs)| ==>
      !LogicalWrites(Interrupts(inputs))[i].ButtonMessage? &&
      LogicalWrites(Interrupts(inputs))[i].Value() == Pressed(Interrupts(inputs)[i])
  {
    NoLossNoDuplication(capacity, Run([], [], 0), ToSteps(inputs));
    assert [] + [] + Submitted(ToSteps(inputs)) == Submitted(ToSteps(inputs));
    SubmittedWriters(inputs);
    LogicalWritesValues(Interrupts(inputs));
  }

  /** A run without overflow that ends with the queue drained: the worker has
      run exactly one writer per edge, in edge order */
  lemma WorkerRunsOneWritePerEdge(capacity: nat, inputs: seq<Input>)
    ensures var r := Simulate(capacity, Run([], [], 0), ToSteps(inputs));
      r.dropped == 0 && r.queue == [] ==> Writers(r.observed) == LogicalWrites(Interrupts(inputs))
  {
    var r := Simulate(capacity, Run([], [], 0), ToSteps(inputs));
    WorkerSeesOneWritePerEdge(capacity, inputs);
    assert r.observed + [] == r.observed;
  }

  lemma {:induction false} LogicalWritesValues(edges: seq<EdgeSource>)
    ensures forall i :: 0 <= i < |edges| ==>
      !LogicalWrites(edges)[i].ButtonMessage? && LogicalWrites(edges)[i].Value() == Pressed(edges[i])
  {
    if edges != [] {
      LogicalWritesValues(edges[1..]);
      forall i | 1 <= i < |edges|
        ensures LogicalWrites(edges)[i] == LogicalWrites(edges[1..])[i - 1]
      {
      }
    }
  }

  /** The LED output after a write has been filtered */
  function LevelAfter(current: Level, u: LedUpdate): Level {
    if u.Changed? then u.level else current
  }

  /** What the write filter logs: the new state after a change, the
      unchanged state after a "still" write, nothing for a discarded write */
  function LedLog(current: Level, u: LedUpdate): seq<LogTag> {
    match u
    case Ignored => []
    case Changed(l) => [LedNow(l == 1)]
    case Still => [LedStill(current == 1)]
  }

  class DigitalIOdemo {
    const server: GattServer
    /** The number of tasks the event queue can hold */
    const capacity: nat

    var led1: Level
    var led3: Level
    var actuatedLed: Level
    /** True while a central is connected */
    var cState: bool
    var service: DigitalIOService?
    /** The edges whose interrupt handlers have been attached */
    var attached: set<EdgeSource>
    /** The deferred tasks not yet run, in FIFO order */
    var queue: seq<Task>
    /** The calls made on the collaborators, in order */
    var calls: seq<Call>
    var log: seq<LogTag>

    /** Tasks are only posted by attached handlers, and handlers are only
        attached once the service exists, so no task can find it missing */
    ghost predicate Valid()
      reads this, server
    {
      |queue| <= capacity &&
      (service != null ==> service.server == server && service.Valid()) &&
      (attached != {} ==> service != null) &&
      (queue != [] ==> service != null)
    }

    /** All three outputs start high; not connected, no service, nothing attached */
    constructor (server: GattServer, capacity: nat)
      ensures this.server == server && this.capacity == capacity
      ensures led1 == 1 && led3 == 1 && actuatedLed == 1 && !cState
      ensures service == null && attached == {} && queue == [] && calls == [] && log == []
      ensures Valid()
    {
      this.server := server;
      this.capacity := capacity;
      led1, led3, actuatedLed := 1, 1, 1;
      cState := false;
      service := null;
      attached, queue, calls, log := {}, [], [], [];
    }

    /** The service exists with initial values (0, 0, 1) for the given
        handles, its table was registered after the earlier ones, and the
        server stores those initial values and has pushed nothing new */
    ghost predicate Installed(handles: ValueHandles, values0: map<Handle, seq<byte>>,
                              services0: seq<Service>, pushes0: seq<Push>)
      reads this`service, server
    {
      service != null && service.handles == handles &&
      service.button1PressedInitial == 0 && service.button2PressedInitial == 0 &&
      service.ledStateInitial == 1 &&
      server.services == services0 + [service.Table()] &&
      server.values == values0[handles.buttonState := [0]][handles.buttonColour := [0]][handles.ledState := [1]] &&
      server.pushes == pushes0
    }

    /** `on_init_complete`: on error, log and stop; otherwise create the
        service with initial values (0, 0, 1), attach the four edge handlers
        and run the advertising setup */
    method OnInitComplete(initOk: bool, adv: AdvResults, handles: ValueHandles)
      requires Valid() && service == null && handles.Distinct()
      modifies this`service, this`attached, this`calls, this`log, server
      ensures Valid()
      ensures calls == old(calls) + InitCalls(initOk, adv)
      ensures !initOk ==>
        service == null && attached == old(attached) && log == old(log) + [InitFailed] &&
        unchanged(server)
      ensures initOk ==>
        fresh(service) && Installed(handles, old(server.values), old(server.services), old(server.pushes)) &&
        attached == AllEdges && log == old(log) + AdvertisingLog(adv)
    {
      if !initOk {
        log := log + [InitFailed];
        return;
      }
      InitSucceeded(adv, handles);
    }

    /** The successful branch of `on_init_complete` */
    method InitSucceeded(adv: AdvResults, handles: ValueHandles)
      requires Valid() && service == null && handles.Distinct()
      modifies this`service, this`attached, this`calls, this`log, server
      ensures Valid()
      ensures calls == old(calls) + InitCalls(true, adv)
      ensures fresh(service) && Installed(handles, old(server.values), old(server.services), old(server.pushes))
      ensures attached == AllEdges && log == old(log) + AdvertisingLog(adv)
    {
      ghost var before := calls;
      CreateServiceAndAttach(handles);
      StartAdvertising(adv);
      assert calls == before + ([CreateService] + Attachments + AdvertisingCalls(adv));
    }

    /** The successful part of `on_init_complete` before advertising: the
        service with initial values (0, 0, 1), then the four handlers */
    method CreateServiceAndAttach(handles: ValueHandles)
      requires Valid() && service == null && handles.Distinct()
      modifies this`service, this`attached, this`calls, server
      ensures Valid()
      ensures fresh(service) && Installed(handles, old(server.values), old(server.services), old(server.pushes))
      ensures attached == AllEdges
      ensures calls == old(calls) + [CreateService] + Attachments
    {
      service := new DigitalIOService(server, 0, 0, 1, handles);
      calls := calls + [CreateService];
      AttachHandlers();
    }

    /** The four `fall` / `rise` registrations, in source order */
    method AttachHandlers()
      requires Valid() && service != null
      modifies this`attached, this`calls
      ensures Valid()
      ensures attached == old(attached) + AllEdges
      ensures calls == old(calls) + Attachments
    {
      AttachHandler(EdgeSource(Button1, Fall));
      AttachHandler(EdgeSource(Button1, Rise));
      AttachHandler(EdgeSource(Button2, Fall));
      AttachHandler(EdgeSource(Button2, Rise));
    }

    /** `InterruptIn::fall` / `rise` with one of this controller's handlers */
    method AttachHandler(s: EdgeSource)
      requires Valid() && service != null
      modifies this`attached, this`calls
      ensures Valid()
      ensures attached == old(attached) + {s}
      ensures calls == old(calls) + [Attach(s)]
    {
      attached := attached + {s};
      calls := calls + [Attach(s)];
    }

    /** `start_advertising`: set the parameters, then the payload, then
        start; the first failing call is logged and ends the setup */
    method StartAdvertising(r: AdvResults)
      modifies this`calls, this`log
      ensures calls == old(calls) + AdvertisingCalls(r)
      ensures log == old(log) + AdvertisingLog(r)
    {
      calls := calls + [GapSetParameters];
      if !r.parametersOk {
        log := log + [AdvertisingFailed(GapSetParameters)];
        return;
      }
      calls := calls + [GapSetPayload];
      if !r.payloadOk {
        log := log + [AdvertisingFailed(GapSetPayload)];
        return;
      }
      calls := calls + [GapStart];
      if !r.startOk {
        log := log + [AdvertisingFailed(GapStart)];
        return;
      }
    }

    /** `when_data_written`: a client wrote `data` to the attribute `h` */
    method WhenDataWritten(h: Handle, data: seq<byte>)
      requires Valid() && service != null
      modifies this`actuatedLed, this`log
      ensures Valid()
      ensures var u := LedWrite(old(actuatedLed), service.handles.ledState, h, data);
        actuatedLed == LevelAfter(old(actuatedLed), u) && log == old(log) + LedLog(old(actuatedLed), u)
    {
      if h == service.GetLEDValueHandle() && |data| == 1 {
        if actuatedLed != data[0] as int {
          actuatedLed := LevelOf(data[0]);
          log := log + [LedNow(actuatedLed == 1)];
        } else {
          log := log + [LedStill(actuatedLed == 1)];
        }
      }
    }

    /** The periodic `blink`: toggles LED1 unless connected */
    method Blink()
      modifies this`led1
      ensures led1 == if cState then old(led1) else 1 - old(led1)
    {
      if !cState {
        led1 := 1 - led1;
      }
    }

    /** `onConnectionComplete` */
    method OnConnectionComplete()
      modifies this`cState, this`led1, this`led3, this`log
      ensures cState && led1 == 1 && led3 == 0
      ensures log == old(log) + [NowConnected(actuatedLed == 1)]
    {
      cState := true;
      led1 := 1;
      led3 := 0;
      log := log + [NowConnected(actuatedLed == 1)];
    }

    /** `onDisconnectionComplete`: restarts advertising once, whatever it
        returns, and never retries */
    method OnDisconnectionComplete()
      modifies this`cState, this`led3, this`calls, this`log
      ensures !cState && led3 == 1
      ensures calls == old(calls) + [GapStart]
      ensures log == old(log) + [NowDisconnected(actuatedLed == 1)]
    {
      calls := calls + [GapStart];
      led3 := 1;
      cState := false;
      log := log + [NowDisconnected(actuatedLed == 1)];
    }

    /** `EventQueue::call`: posts a task, or drops it when the queue is full */
    method Enqueue(t: Task)
      requires Valid() && service != null
      modifies this`queue
      ensures Valid()
      ensures queue == Post(old(queue), capacity, t)
    {
      if |queue| < capacity {
        queue := queue + [t];
      }
    }

    /** `button1_pressed` */
    method Button1Pressed()
      requires Valid() && service != null
      modifies this`queue
      ensures Valid()
      ensures queue == PostAll(old(queue), capacity, EdgeTasks(EdgeSource(Button1, Fall)))
    {
      Enqueue(UpdateButtonState(true));
    }

    /** `button1_released` */
    method Button1Released()
      requires Valid() && service != null
      modifies this`queue
      ensures Valid()
      ensures queue == PostAll(old(queue), capacity, EdgeTasks(EdgeSource(Button1, Rise)))
    {
      Enqueue(UpdateButtonState(false));
      Enqueue(ButtonMessage(1));
      assert [UpdateButtonState(false), ButtonMessage(1)][1..] == [ButtonMessage(1)];
    }

    /** `button2_pressed`: button 2 is wired in reverse, so its falling edge writes false */
    method Button2Pressed()
      requires Valid() && service != null
      modifies this`queue
      ensures Valid()
      ensures queue == PostAll(old(queue), capacity, EdgeTasks(EdgeSource(Button2, Fall)))
    {
      Enqueue(UpdateButtonColour(false));
      Enqueue(ButtonMessage(2));
      assert [UpdateButtonColour(false), ButtonMessage(2)][1..] == [ButtonMessage(2)];
    }

    /** `button2_released` */
    method Button2Released()
      requires Valid() && service != null
      modifies this`queue
      ensures Valid()
      ensures queue == PostAll(old(queue), capacity, EdgeTasks(EdgeSource(Button2, Rise)))
    {
      Enqueue(UpdateButtonColour(true));
    }

    /** An interrupt on one edge: runs the handler attached to it, if any.
        Handlers only post tasks; nothing else changes. */
    method FireEdge(s: EdgeSource)
      requires Valid()
      modifies this`queue
      ensures Valid()
      ensures queue == if s in attached then PostAll(old(queue), capacity, EdgeTasks(s)) else old(queue)
    {
      if s in attached {
        match s
        case EdgeSource(Button1, Fall) => Button1Pressed();
        case EdgeSource(Button1, Rise) => Button1Released();
        case EdgeSource(Button2, Fall) => Button2Pressed();
        case EdgeSource(Button2, Rise) => Button2Released();
      }
    }

    /** The event queue's worker runs the task at the front, if there is one */
    method Dispatch()
      requires Valid()
      modifies this`queue, this`log, server
      ensures Valid()
      ensures old(queue) == [] ==> queue == [] && log == old(log) && unchanged(server)
      ensures old(queue) != [] ==> queue == old(queue)[1..] && server.services == old(server.services)
      ensures old(queue) != [] && old(queue)[0].UpdateButtonState? ==>
        var p := Push(service.handles.buttonState, [ByteOf(old(queue)[0].state)]);
        server.values == old(server.values)[p.handle := p.value] &&
        server.pushes == old(server.pushes) + [p] && log == old(log)
      ensures old(queue) != [] && old(queue)[0].UpdateButtonColour? ==>
        var p := Push(service.handles.buttonColour, [ByteOf(old(queue)[0].colour)]);
        server.values == old(server.values)[p.handle := p.value] &&
        server.pushes == old(server.pushes) + [p] && log == old(log)
      ensures old(queue) != [] && old(queue)[0].ButtonMessage? ==>
        unchanged(server) && log == old(log) + [ButtonPressed(old(queue)[0].number)]
    {
      if queue == [] {
        return;
      }
      var t := queue[0];
      queue := queue[1..];
      match t
      case UpdateButtonState(v) => service.UpdateButtonState(ByteOf(v));
      case UpdateButtonColour(v) => service.UpdateButtonColour(ByteOf(v));
      case ButtonMessage(n) => log := log + [ButtonPressed(n)];
    }
  }
}
