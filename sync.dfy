/**
 * The event handlers `run` registers: on every `connect` the bridge announces
 * the switch, subscribes to its command topic and starts a new file watcher;
 * a message on the command topic is written to the backing file; and every
 * live watcher, when the file is touched, reads it and publishes the state.
 *
 * The MQTT client, the watcher library and the file system are seen only
 * through the trace of actions the bridge asks of them.
 */
module Sync {
  import opened Wrappers
  import opened CommandLine
  import opened Naming
  import opened Discovery
  import opened SwitchState

  datatype Payload = Text(text: string) | Config(config: DiscoveryConfig)

  /** What the bridge asks of the broker, the file system and the watcher library. */
  datatype Action =
    | Publish(topic: string, payload: Payload, retain: bool)
    | Subscribe(topic: string)
    | WriteFile(path: string, content: string)
    | StartWatcher(path: string)

  /**
   * What the bridge reacts to. A connect carries the read made by the `add`
   * event of its new watcher when the file already exists (None when it does
   * not); a touch carries the result of the read it triggers.
   */
  datatype Event =
    | Connect(initial: Option<ReadResult>)
    | Message(topic: string, payload: string)
    | FileTouched(read: ReadResult)

  /** What `run` fixes before it connects: the switch, its file, its device and command topic. */
  datatype Setup = Setup(switchName: string, switchPath: string, device: string, commandTopic: string)

  function SetupOf(args: Args): Setup {
    var device := DeviceSlug(args.switchName);
    Setup(args.switchName, args.switchPath, device, CommandTopic(device))
  }

  /** A setup as `run` builds it: the command topic is the device's `/set` topic. */
  predicate WellFormed(s: Setup) {
    s.commandTopic == CommandTopic(s.device)
  }

  /**
   * `sendConfigurationMessages`: the discovery record of the device, retained,
   * on its config topic. The record names the device's state topic and the
   * command topic of the setup, which differ for a setup `run` builds.
   */
  function ConfigMessage(s: Setup): (a: Action)
    ensures a.Publish? && a.retain && a.topic == ConfigTopic(s.device)
    ensures a.payload.Config? && a.payload.config.objectId == s.device && a.payload.config.name == s.switchName
    ensures a.payload.config.stateTopic == StateTopic(s.device)
    ensures a.payload.config.commandTopic == s.commandTopic
    ensures WellFormed(s) ==> a.payload.config.commandTopic != a.payload.config.stateTopic
  {
    Publish(ConfigTopic(s.device), Config(DiscoveryPayload(s.device, s.switchName, s.commandTopic)), true)
  }

  /** `sendSwitchState`: not retained, on the state topic, `ON` exactly for state 1 and `OFF` otherwise. */
  function StatePublish(device: string, state: int): (a: Action)
    ensures a.Publish? && !a.retain && a.topic == StateTopic(device)
    ensures a.payload.Text? && (a.payload.text == "ON" || a.payload.text == "OFF")
    ensures a.payload.text == "ON" <==> state == 1
  {
    Publish(StateTopic(device), Text(StateMessage(state)), false)
  }

  /** `n` copies of `a`. */
  function Repeat(a: Action, n: nat): (r: seq<Action>)
    ensures |r| == n
    ensures forall i :: 0 <= i < n ==> r[i] == a
  {
    if n == 0 then [] else Repeat(a, n - 1) + [a]
  }

  /** The new watcher's `add` for an existing file: one publish of what it read. */
  function InitialPublish(s: Setup, initial: Option<ReadResult>): seq<Action> {
    if initial.Some? then [StatePublish(s.device, ReadState(initial.value))] else []
  }

  /** The handler of `connect`, in its order, then the new watcher's initial read. */
  function ConnectActions(s: Setup, initial: Option<ReadResult>): seq<Action> {
    [ConfigMessage(s), Subscribe(s.commandTopic), StartWatcher(s.switchPath)] + InitialPublish(s, initial)
  }

  /** The handler of `message`: only the command topic leads to a write. */
  function MessageActions(s: Setup, topic: string, payload: string): seq<Action> {
    if topic == s.commandTopic then [WriteFile(s.switchPath, WriteContent(StateFromPayload(payload)))] else []
  }

  /** Every live watcher reads the file and publishes what it read. */
  function TouchActions(s: Setup, watchers: nat, read: ReadResult): seq<Action> {
    Repeat(StatePublish(s.device, ReadState(read)), watchers)
  }

  /** The live watchers and everything asked of the outside so far. */
  datatype Machine = Machine(watchers: nat, trace: seq<Action>)

  const Initial := Machine(0, [])

  /**
   * One event, run to completion. Only a connect adds a watcher; every event
   * only appends to the trace; a touch appends one action per live watcher;
   * a message on another topic than the command topic changes nothing.
   */
  function Step(s: Setup, m: Machine, e: Event): (r: Machine)
    ensures r.watchers == m.watchers + (if e.Connect? then 1 else 0)
    ensures |m.trace| <= |r.trace| && r.trace[..|m.trace|] == m.trace
    ensures e.FileTouched? ==> |r.trace| == |m.trace| + m.watchers
    ensures e.Message? && e.topic != s.commandTopic ==> r == m
  {
    var r := match e
      case Connect(initial) => Machine(m.watchers + 1, m.trace + ConnectActions(s, initial))
      case Message(topic, payload) => Machine(m.watchers, m.trace + MessageActions(s, topic, payload))
      case FileTouched(read) => Machine(m.watchers, m.trace + TouchActions(s, m.watchers, read));
    assert r.trace[..|m.trace|] == m.trace;
    assert m.trace + [] == m.trace;
    r
  }

  /** The machine after `events`, one at a time, each to completion. */
  function Run(s: Setup, m: Machine, events: seq<Event>): Machine
    decreases |events|
  {
    if events == [] then m
    else Step(s, Run(s, m, events[..|events| - 1]), events[|events| - 1])
  }

  /** The bridge of one process: its fixed setup, its live watchers and its trace. */
  class Controller {
    const setup: Setup
    var watchers: nat
    var trace: seq<Action>

    function State(): Machine
      reads this
    {
      Machine(watchers, trace)
    }

    /** The part of `run` before any event: device and command topic from the arguments. */
    constructor (args: Args)
      ensures setup == SetupOf(args) && WellFormed(setup)
      ensures State() == Initial
    {
      var device := DeviceSlug(args.switchName);
      setup := Setup(args.switchName, args.switchPath, device, CommandTopic(device));
      watchers := 0;
      trace := [];
    }

    /**
     * Announce, subscribe and start a new watcher. When the file exists, that
     * watcher's `add` reads it and publishes the state, once.
     */
    method OnConnect(initial: Option<ReadResult>)
      modifies this
      ensures State() == Step(setup, old(State()), Connect(initial))
    {
      trace := trace + [ConfigMessage(setup)];
      trace := trace + [Subscribe(setup.commandTopic)];
      trace := trace + [StartWatcher(setup.switchPath)];
      watchers := watchers + 1;
      if initial.Some? {
        trace := trace + [StatePublish(setup.device, ReadState(initial.value))];
      }
    }

    method OnMessage(topic: string, payload: string)
      modifies this
      ensures State() == Step(setup, old(State()), Message(topic, payload))
    {
      if topic == setup.commandTopic {
        trace := trace + [WriteFile(setup.switchPath, WriteContent(StateFromPayload(payload)))];
      }
    }

    /** Each watcher's callback in turn: read the file, publish the state read. */
    method OnFileTouched(read: ReadResult)
      modifies this
      ensures State() == Step(setup, old(State()), FileTouched(read))
    {
      var k := 0;
      while k < watchers
        invariant 0 <= k <= watchers
        invariant watchers == old(watchers)
        invariant trace == old(trace) + Repeat(StatePublish(setup.device, ReadState(read)), k)
      {
        trace := trace + [StatePublish(setup.device, ReadState(read))];
        k := k + 1;
      }
    }

    /** The handlers `run` registers with the client and the watchers. */
    method Dispatch(e: Event)
      modifies this
      ensures State() == Step(setup, old(State()), e)
    {
      match e
      case Connect(initial) => OnConnect(initial);
      case Message(topic, payload) => OnMessage(topic, payload);
      case FileTouched(read) => OnFileTouched(read);
    }
  }

  function CountConnects(events: seq<Event>): nat {
    if events == [] then 0
    else CountConnects(events[..|events| - 1]) + (if events[|events| - 1].Connect? then 1 else 0)
  }

  function CountStarts(trace: seq<Action>): nat {
    if trace == [] then 0
    else CountStarts(trace[..|trace| - 1]) + (if trace[|trace| - 1].StartWatcher? then 1 else 0)
  }

  lemma {:induction false} CountStartsAppend(a: seq<Action>, b: seq<Action>)
    ensures CountStarts(a + b) == CountStarts(a) + CountStarts(b)
    decreases |b|
  {
    if b != [] {
      assert (a + b)[..|a + b| - 1] == a + b[..|b| - 1];
      CountStartsAppend(a, b[..|b| - 1]);
    } else {
      assert a + b == a;
    }
  }

  lemma {:induction false} CountStartsRepeat(s: Setup, n: nat, state: int)
    ensures CountStarts(Repeat(StatePublish(s.device, state), n)) == 0
    decreases n
  {
    if n > 0 {
      CountStartsRepeat(s, n - 1, state);
    }
  }

  /** The actions each event adds, and the start-watcher actions among them. */
  lemma StepStarts(s: Setup, m: Machine, e: Event)
    ensures CountStarts(Step(s, m, e).trace) == CountStarts(m.trace) + (if e.Connect? then 1 else 0)
  {
    match e
    case Connect(initial) =>
      var c := [ConfigMessage(s), Subscribe(s.commandTopic), StartWatcher(s.switchPath)];
      var extra := InitialPublish(s, initial);
      CountStartsAppend(m.trace, c + extra);
      CountStartsAppend(c, extra);
      assert [c[0]][..0] == [] && [c[0], c[1]][..1] == [c[0]] && c[..2] == [c[0], c[1]];
      assert CountStarts([c[0]]) == 0;
      assert CountStarts([c[0], c[1]]) == 0;
      assert extra != [] ==> extra[..0] == [];
    case Message(topic, payload) =>
      CountStartsAppend(m.trace, MessageActions(s, topic, payload));
      if topic == s.commandTopic {
        assert MessageActions(s, topic, payload)[..0] == [];
      }
    case FileTouched(read) =>
      CountStartsAppend(m.trace, TouchActions(s, m.watchers, read));
      CountStartsRepeat(s, m.watchers, ReadState(read));
  }

  /**
   * A watcher is started on every `connect` and never stopped: the live
   * watchers, and the watchers started in the trace, number the connects.
   */
  lemma {:induction false} WatchersCountConnects(s: Setup, events: seq<Event>)
    ensures Run(s, Initial, events).watchers == CountConnects(events)
    ensures CountStarts(Run(s, Initial, events).trace) == CountConnects(events)
    decreases |events|
  {
    if events != [] {
      var before := events[..|events| - 1];
      WatchersCountConnects(s, before);
      StepStarts(s, Run(s, Initial, before), events[|events| - 1]);
    }
  }

  /** Every event only adds to the trace: what was asked before stays as it was. */
  lemma {:induction false} TraceGrows(s: Setup, m: Machine, events: seq<Event>)
    ensures |m.trace| <= |Run(s, m, events).trace|
    ensures Run(s, m, events).trace[..|m.trace|] == m.trace
    decreases |events|
  {
    if events != [] {
      TraceGrows(s, m, events[..|events| - 1]);
    }
  }

  /**
   * The actions the bridge can ever ask for: the retained discovery record on
   * the config topic, `ON`/`OFF` (not retained) on the state topic, a
   * subscription to the command topic, the file content `0` or `1`, and a
   * watcher on the file.
   */
  predicate Allowed(s: Setup, a: Action) {
    match a
    case Publish(topic, Config(c), retain) =>
      topic == ConfigTopic(s.device) && retain && c == DiscoveryPayload(s.device, s.switchName, CommandTopic(s.device))
    case Publish(topic, Text(message), retain) =>
      topic == StateTopic(s.device) && !retain && (message == "ON" || message == "OFF")
    case Subscribe(topic) => topic == CommandTopic(s.device)
    case WriteFile(path, content) => path == s.switchPath && (content == "0" || content == "1")
    case StartWatcher(path) => path == s.switchPath
  }

  predicate AllAllowed(s: Setup, trace: seq<Action>) {
    forall i :: 0 <= i < |trace| ==> Allowed(s, trace[i])
  }

  lemma StepAllowed(s: Setup, m: Machine, e: Event)
    requires WellFormed(s)
    requires AllAllowed(s, m.trace)
    ensures AllAllowed(s, Step(s, m, e).trace)
  {
    match e
    case Connect(initial) =>
    case Message(topic, payload) =>
      CommandContent(payload);
    case FileTouched(read) =>
  }

  /** Whatever the events, every action in the trace is one of the allowed ones. */
  lemma {:induction false} TraceAllowed(s: Setup, events: seq<Event>)
    requires WellFormed(s)
    ensures AllAllowed(s, Run(s, Initial, events).trace)
    decreases |events|
  {
    if events != [] {
      var before := events[..|events| - 1];
      TraceAllowed(s, before);
      StepAllowed(s, Run(s, Initial, before), events[|events| - 1]);
    }
  }

  /** The bridge never publishes on its own command topic, so it never commands itself. */
  lemma NeverPublishesCommands(s: Setup, events: seq<Event>)
    requires WellFormed(s)
    ensures forall i :: 0 <= i < |Run(s, Initial, events).trace| ==>
      Run(s, Initial, events).trace[i].Publish? ==> Run(s, Initial, events).trace[i].topic != s.commandTopic
  {
    TraceAllowed(s, events);
    TopicKindsDistinct(s.device, s.device);
  }

  /**
   * The state topic of the announced record is the topic the state is
   * published on, and its command topic the topic the bridge subscribes to.
   */
  lemma AnnouncementMatchesTraffic(s: Setup, state: int)
    ensures var connect := ConnectActions(s, None);
      && connect[0].payload.config.stateTopic == StatePublish(s.device, state).topic
      && connect[0].payload.config.commandTopic == connect[1].topic
  {
  }

  /** A touch publishes the state read once per live watcher, and does nothing else. */
  lemma TouchPublishesPerWatcher(s: Setup, m: Machine, read: ReadResult)
    ensures var after := Step(s, m, FileTouched(read));
      && after.watchers == m.watchers
      && |after.trace| == |m.trace| + m.watchers
      && after.trace[..|m.trace|] == m.trace
      && forall i :: |m.trace| <= i < |after.trace| ==>
           after.trace[i] == Publish(StateTopic(s.device), Text(StateMessage(ReadState(read))), false)
  {
  }

  /** A message on any topic other than the command topic changes nothing. */
  lemma ForeignMessageIgnored(s: Setup, m: Machine, topic: string, payload: string)
    requires topic != s.commandTopic
    ensures Step(s, m, Message(topic, payload)) == m
  {
    assert m.trace + [] == m.trace;
  }

  /**
   * A command and the touch of the file it causes: the file receives `1` for
   * `ON` and `0` for anything else, and every live watcher then publishes
   * `ON` for `ON` and `OFF` for anything else.
   */
  lemma CommandRoundTrip(s: Setup, m: Machine, payload: string)
    ensures var content := if payload == "ON" then "1" else "0";
      var echo := if payload == "ON" then "ON" else "OFF";
      var written := Step(s, m, Message(s.commandTopic, payload));
      && written.trace == m.trace + [WriteFile(s.switchPath, content)]
      && Step(s, written, FileTouched(Ok(content))).trace
         == written.trace + Repeat(Publish(StateTopic(s.device), Text(echo), false), m.watchers)
  {
    CommandContent(payload);
    CommandEcho(payload);
  }

  /**
   * A connect publishes the initial read of its new watcher once, however
   * many watchers earlier connects left live.
   */
  lemma ConnectPublishesInitialOnce(s: Setup, m: Machine, read: ReadResult)
    ensures var after := Step(s, m, Connect(Some(read)));
      && after.watchers == m.watchers + 1
      && after.trace == m.trace + [ConfigMessage(s), Subscribe(s.commandTopic), StartWatcher(s.switchPath),
                                   StatePublish(s.device, ReadState(read))]
  {
    assert m.trace + ConnectActions(s, Some(read))
        == m.trace + [ConfigMessage(s), Subscribe(s.commandTopic), StartWatcher(s.switchPath),
                      StatePublish(s.device, ReadState(read))];
  }

  /**
   * Two connects announce twice, subscribe twice and leave two watchers. Each
   * new watcher publishes the state it reads on `add` once, but a later touch
   * of the file is published twice.
   */
  lemma ReconnectDuplicatesPublishes(s: Setup, read: ReadResult)
    ensures var m := Run(s, Initial, [Connect(Some(read)), Connect(Some(read)), FileTouched(read)]);
      var publish := StatePublish(s.device, ReadState(read));
      && m.watchers == 2
      && m.trace == ConnectActions(s, None) + [publish] + ConnectActions(s, None) + [publish]
                    + [publish, publish]
  {
    var events := [Connect(Some(read)), Connect(Some(read)), FileTouched(read)];
    var publish := StatePublish(s.device, ReadState(read));
    var connect := ConnectActions(s, None) + [publish];
    assert ConnectActions(s, Some(read)) == connect;
    assert events[..2] == [Connect(Some(read)), Connect(Some(read))];
    assert events[..2][..1] == [Connect(Some(read))] && events[..2][..1][..0] == [];
    assert Run(s, Initial, [Connect(Some(read))]) == Machine(1, [] + connect);
    assert [] + connect == connect;
    assert Run(s, Initial, events[..2]) == Machine(2, connect + connect);
    assert Repeat(publish, 2) == [publish, publish];
  }

  /**
   * A connect whose watcher finds the file holding `0`, the command `ON` and
   * the touch its write causes: announce, subscribe, watch, publish `OFF`,
   * write `1`, publish `ON`.
   */
  lemma CommandAfterStartup(s: Setup)
    ensures var events := [Connect(Some(Ok("0"))), Message(s.commandTopic, "ON"), FileTouched(Ok("1"))];
      Run(s, Initial, events).trace
        == ConnectActions(s, None) + [
             Publish(StateTopic(s.device), Text("OFF"), false),
             WriteFile(s.switchPath, "1"),
             Publish(StateTopic(s.device), Text("ON"), false)]
  {
    ReadBackWritten(0);
    ReadBackWritten(1);
    var events := [Connect(Some(Ok("0"))), Message(s.commandTopic, "ON"), FileTouched(Ok("1"))];
    var m1 := Machine(1, ConnectActions(s, None) + [StatePublish(s.device, 0)]);
    assert Run(s, Initial, events[..1]) == m1 by {
      assert events[..1][..0] == [];
      assert ConnectActions(s, Some(Ok("0"))) == m1.trace;
      assert [] + m1.trace == m1.trace;
    }
    var m2 := Machine(1, m1.trace + [WriteFile(s.switchPath, "1")]);
    assert Run(s, Initial, events[..2]) == m2 by {
      assert events[..2][..1] == events[..1];
    }
    assert Run(s, Initial, events) == Machine(1, m2.trace + [StatePublish(s.device, 1)]) by {
      assert events[..2] == events[..|events| - 1];
      assert Repeat(StatePublish(s.device, 1), 1) == [StatePublish(s.device, 1)];
    }
  }

  lemma GarageLightSetup()
    ensures SetupOf(Args("broker", None, None, "Garage Light", "switchvalue"))
         == Setup("Garage Light", "switchvalue", "garage_light", "home/switch/garage_light/set")
  {
    GarageLightSlug();
    GarageLightTopics();
  }

  /**
   * The switch `Garage Light` (the setup `GarageLightSetup` derives) through
   * the same events, on its own topics.
   */
  lemma GarageLightScenario()
    ensures var s := Setup("Garage Light", "switchvalue", "garage_light", "home/switch/garage_light/set");
      var events := [Connect(Some(Ok("0"))), Message("home/switch/garage_light/set", "ON"), FileTouched(Ok("1"))];
      Run(s, Initial, events).trace == [
        Publish("home/switch/garage_light/config",
                Config(DiscoveryConfig("garage_light", "garage_light", "Garage Light", "switch",
                                       "home/switch/garage_light/set", "home/switch/garage_light/state")),
                true),
        Subscribe("home/switch/garage_light/set"),
        StartWatcher("switchvalue"),
        Publish("home/switch/garage_light/state", Text("OFF"), false),
        WriteFile("switchvalue", "1"),
        Publish("home/switch/garage_light/state", Text("ON"), false)]
  {
    var s := Setup("Garage Light", "switchvalue", "garage_light", "home/switch/garage_light/set");
    CommandAfterStartup(s);
    GarageLightTopics();
    assert ConnectActions(s, None) == [
      Publish("home/switch/garage_light/config",
              Config(DiscoveryConfig("garage_light", "garage_light", "Garage Light", "switch",
                                     "home/switch/garage_light/set", "home/switch/garage_light/state")),
              true),
      Subscribe("home/switch/garage_light/set"),
      StartWatcher("switchvalue")];
  }
}
