/** The guest agent (`service.py`), the other end of the control channel: it
    opens the guest's side of the channel, announces initialization, sends
    heartbeats, and obeys the controller's commands. Every message is a JSON
    document on one line ending in CR LF. */
module Agent {
  import opened Wrappers
  import opened Values

  /** One address of a network interface, as `psutil.net_if_addrs` lists it. */
  datatype IfAddr = IfAddr(family: string, address: string, netmask: Option<string>)

  /** What one `send_status` reads from the guest. Readings that are floats
      in the source are carried as opaque values. */
  datatype Snapshot = Snapshot(
    interfaces: map<string, seq<IfAddr>>,
    cpuCount: Json,
    cpuUsage: Json,
    rootFsUsage: Json,
    memoryUsage: Json,
    mounts: string,
    uptime: int,
    processes: int)

  /** The interface whose addresses are reported: `eth0` when the guest has
      one, `enp0s1` otherwise. */
  function MainInterface(s: Snapshot): (name: string)
    ensures name == "eth0" <==> "eth0" in s.interfaces
    ensures name != "eth0" ==> name == "enp0s1"
  {
    if "eth0" in s.interfaces then "eth0" else "enp0s1"
  }

  /** `[x.address, x.netmask]`; a missing netmask is `null`. */
  function AddressPair(a: IfAddr): Json {
    JArr([JStr(a.address), match a.netmask case Some(m) => JStr(m) case None => JNull])
  }

  /** The comprehension over an interface's addresses that keeps the IPv4 ones. */
  function InetPairs(addrs: seq<IfAddr>): (r: seq<Json>)
    ensures |r| <= |addrs|
    decreases |addrs|
  {
    if addrs == [] then []
    else
      var n := |addrs| - 1;
      var init := InetPairs(addrs[..n]);
      if addrs[n].family == "AF_INET" then init + [AddressPair(addrs[n])] else init
  }

  /** The reported pairs of two address lists are those of the first then
      those of the second: every IPv4 address is reported, in order, and
      nothing else is. */
  lemma {:induction false} InetPairsAppend(a: seq<IfAddr>, b: seq<IfAddr>)
    ensures InetPairs(a + b) == InetPairs(a) + InetPairs(b)
    decreases |b|
  {
    if b == [] {
      assert a + b == a;
    } else {
      var n := |b| - 1;
      assert (a + b)[..|a| + n] == a + b[..n];
      assert (a + b)[|a| + n] == b[n];
      InetPairsAppend(a, b[..n]);
    }
  }

  /** Exactly the IPv4 addresses are reported, each as its
      `[address, netmask]` pair. */
  lemma {:induction false} InetPairsMeaning(addrs: seq<IfAddr>)
    ensures forall p | p in InetPairs(addrs) :: exists a | a in addrs :: a.family == "AF_INET" && p == AddressPair(a)
    ensures forall a | a in addrs && a.family == "AF_INET" :: AddressPair(a) in InetPairs(addrs)
    decreases |addrs|
  {
    if addrs != [] {
      var n := |addrs| - 1;
      InetPairsMeaning(addrs[..n]);
      assert forall a | a in addrs[..n] :: a in addrs;
      assert forall a | a in addrs :: a in addrs[..n] || a == addrs[n];
    }
  }

  /** The keys of a heartbeat. */
  const HeartbeatKeys: seq<string> := ["cpu_count", "cpu_usage", "root_fs_usage", "mounts", "status",
                                       "uptime", "processes", "network_addresses", "memory_usage"]

  /** The heartbeat `send_status` builds; looking up a main interface the
      guest does not have raises `KeyError`. */
  function Heartbeat(s: Snapshot): (r: Result<Json, PyError>)
    ensures r.Ok? <==> MainInterface(s) in s.interfaces
    ensures r.Err? ==> r.error == KeyError
    ensures r.Ok? ==>
      && r.value.JObj?
      && (forall k | k in HeartbeatKeys :: k in r.value.fields)
      && r.value.fields["status"] == JStr("running")
      && r.value.fields["network_addresses"] == JArr(InetPairs(s.interfaces[MainInterface(s)]))
  {
    var main := MainInterface(s);
    if main !in s.interfaces then Err(KeyError)
    else
      Ok(JObj(map[
        "cpu_count" := s.cpuCount,
        "cpu_usage" := s.cpuUsage,
        "root_fs_usage" := s.rootFsUsage,
        "mounts" := JStr(s.mounts),
        "status" := JStr("running"),
        "uptime" := JNum(s.uptime),
        "processes" := JNum(s.processes),
        "network_addresses" := JArr(InetPairs(s.interfaces[main])),
        "memory_usage" := s.memoryUsage]))
  }

  /** How `cloud-init status --wait` ended: exit status 0, a non-zero exit
      status (`CalledProcessError`), or no such program. */
  datatype CloudInitExit = Finished | Failed | NotFound

  const Initializing: Json := JObj(map["status" := JStr("initializing")])
  const InitializationComplete: Json := JObj(map["status" := JStr("initialization_complete")])
  const InitializationError: Json := JObj(map["status" := JStr("initialization_error")])

  /** The messages of the startup sequence and how it ends: `initializing`,
      then the outcome of cloud-init, then one heartbeat. A missing
      `cloud-init` escapes the `except` and ends the agent. */
  function StartupMessages(exit: CloudInitExit, s: Snapshot): (r: (seq<Json>, Result<(), PyError>))
    ensures |r.0| >= 1 && r.0[0] == Initializing
    ensures exit == NotFound <==> r.0 == [Initializing]
    ensures exit == NotFound ==> r.1 == Err(FileNotFoundError)
    ensures exit != NotFound ==> |r.0| >= 2 && r.0[1] == (if exit == Finished then InitializationComplete else InitializationError)
    ensures exit != NotFound ==> (r.1.Ok? <==> Heartbeat(s).Ok?)
    ensures exit != NotFound && r.1.Ok? ==> r.0 == [Initializing, r.0[1], Heartbeat(s).value]
    ensures exit != NotFound && r.1.Err? ==> |r.0| == 2 && r.1 == Err(KeyError)
  {
    if exit == NotFound then ([Initializing], Err(FileNotFoundError))
    else
      var second := if exit == Finished then InitializationComplete else InitializationError;
      match Heartbeat(s)
      case Ok(h) => ([Initializing, second, h], Ok(()))
      case Err(e) => ([Initializing, second], Err(e))
  }

  /** What the agent asks the guest to do: `os.system("poweroff")`, or
      `os.system("date +%s -s @<time>")`. */
  datatype Action = PowerOff | SetClock(time: Json)

  /** One pass of the command loop: whether the port opened, the decoded
      line (`None` when `json.loads` fails, as on a read time-out), and the
      guest's readings at that moment. */
  datatype Iteration = Iteration(opens: bool, line: Option<Json>, snapshot: Snapshot)

  /** What one command produces: the messages sent and the actions taken.
      `message_type` is popped with default `"None"`; a command that is not a
      mapping has no `pop` with these arguments, and that error, like a
      missing `time`, is swallowed. */
  function Dispatch(cmd: Json, s: Snapshot): (r: (seq<Json>, seq<Action>))
    ensures !cmd.JObj? ==> r == ([], [])
    ensures cmd.JObj? ==>
      var t := if "message_type" in cmd.fields then cmd.fields["message_type"] else JStr("None");
      && (t == JStr("poweroff") ==> r == ([], [PowerOff]))
      && (t == JStr("time_update") ==>
            r == ([], if "time" in cmd.fields then [SetClock(cmd.fields["time"])] else []))
      && (t == JStr("status") ==> r == (if Heartbeat(s).Ok? then [Heartbeat(s).value] else [], []))
      && (t !in {JStr("poweroff"), JStr("time_update"), JStr("status")} ==> r == ([], []))
  {
    if !cmd.JObj? then ([], [])
    else
      var t := if "message_type" in cmd.fields then cmd.fields["message_type"] else JStr("None");
      var rest := cmd.fields - {"message_type"};
      if t == JStr("poweroff") then ([], [PowerOff])
      else if t == JStr("time_update") then ([], if "time" in rest then [SetClock(rest["time"])] else [])
      else if t == JStr("status") then
        (match Heartbeat(s) case Ok(h) => [h] case Err(_) => [], [])
      else ([], [])
  }

  /** The effect of one pass: nothing when the port did not open or the line did not decode. */
  function IterationEffect(it: Iteration): (seq<Json>, seq<Action>) {
    if it.opens && it.line.Some? then Dispatch(it.line.value, it.snapshot) else ([], [])
  }

  /** What a run of passes produces, pass after pass, when one pass produces `f(it)`. */
  function Collect<T>(f: Iteration -> seq<T>, its: seq<Iteration>): seq<T>
    decreases |its|
  {
    if its == [] then [] else Collect(f, its[..|its| - 1]) + f(its[|its| - 1])
  }

  /** Passes are independent: whatever one pass does, including failing,
      the passes after it produce exactly what they would on their own. */
  lemma {:induction false} CollectAppend<T>(f: Iteration -> seq<T>, a: seq<Iteration>, b: seq<Iteration>)
    ensures Collect(f, a + b) == Collect(f, a) + Collect(f, b)
    decreases |b|
  {
    if b == [] {
      assert a + b == a;
    } else {
      var n := |b| - 1;
      assert (a + b)[..|a| + n] == a + b[..n];
      assert (a + b)[|a| + n] == b[n];
      CollectAppend(f, a, b[..n]);
    }
  }

  /** The messages a run of passes sends. */
  function Outputs(its: seq<Iteration>): seq<Json> {
    Collect(it => IterationEffect(it).0, its)
  }

  /** The actions a run of passes takes. */
  function Actions(its: seq<Iteration>): seq<Action> {
    Collect(it => IterationEffect(it).1, its)
  }

  /** A failed pass does not stop the command loop: the messages and actions
      of a run are those of its first part followed by those of the rest. */
  lemma LoopCompositional(a: seq<Iteration>, b: seq<Iteration>)
    ensures Outputs(a + b) == Outputs(a) + Outputs(b)
    ensures Actions(a + b) == Actions(a) + Actions(b)
  {
    CollectAppend(it => IterationEffect(it).0, a, b);
    CollectAppend(it => IterationEffect(it).1, a, b);
  }

  /** The wire form of a message. */
  function Frame(dumps: Json -> string, msg: Json): string {
    dumps(msg) + "\r\n"
  }

  /** The wire form of a run of messages, one line each. */
  function Frames(dumps: Json -> string, msgs: seq<Json>): (r: seq<string>)
    ensures |r| == |msgs|
    ensures forall i | 0 <= i < |msgs| :: r[i] == Frame(dumps, msgs[i])
  {
    seq(|msgs|, i requires 0 <= i < |msgs| => Frame(dumps, msgs[i]))
  }

  /** The agent. `written` is what went out on the channel, `actions` what
      it asked the guest to do; `dumps` is `json.dumps`. */
  class Agent {
    const dumps: Json -> string
    var written: seq<string>
    var actions: seq<Action>

    constructor(dumps: Json -> string)
      ensures this.dumps == dumps && written == [] && actions == []
    {
      this.dumps := dumps;
      written := [];
      actions := [];
    }

    /** `send_json_message`: one line, the dumped message and CR LF. */
    method SendJsonMessage(msg: Json)
      modifies this`written
      ensures written == old(written) + [Frame(dumps, msg)]
    {
      written := written + [dumps(msg) + "\r\n"];
    }

    /** `send_status`: build and send one heartbeat. */
    method SendStatus(s: Snapshot) returns (r: Result<(), PyError>)
      modifies this`written
      ensures r.Ok? <==> Heartbeat(s).Ok?
      ensures r.Ok? ==> r == Ok(()) && written == old(written) + [Frame(dumps, Heartbeat(s).value)]
      ensures r.Err? ==> written == old(written) && r.error == KeyError
    {
      var h := Heartbeat(s);
      if h.Err? {
        return Err(h.error);
      }
      SendJsonMessage(h.value);
      return Ok(());
    }

    /** The startup sequence. */
    method Startup(exit: CloudInitExit, s: Snapshot) returns (r: Result<(), PyError>)
      modifies this`written
      ensures written == old(written) + Frames(dumps, StartupMessages(exit, s).0)
      ensures r == StartupMessages(exit, s).1
    {
      var msgs := StartupMessages(exit, s).0;
      SendJsonMessage(Initializing);
      if exit == NotFound {
        assert Frames(dumps, msgs) == [Frame(dumps, Initializing)];
        return Err(FileNotFoundError);
      }
      var second := if exit == Finished then InitializationComplete else InitializationError;
      SendJsonMessage(second);
      r := SendStatus(s);
      if r.Ok? {
        assert msgs == [Initializing, second, Heartbeat(s).value];
        assert Frames(dumps, msgs) == [Frame(dumps, Initializing), Frame(dumps, second), Frame(dumps, Heartbeat(s).value)];
      } else {
        assert msgs == [Initializing, second];
        assert Frames(dumps, msgs) == [Frame(dumps, Initializing), Frame(dumps, second)];
      }
    }

    /** One command: pop `message_type` and act on it. */
    method Handle(cmd: Json, s: Snapshot)
      modifies this`written, this`actions
      ensures written == old(written) + Frames(dumps, Dispatch(cmd, s).0)
      ensures actions == old(actions) + Dispatch(cmd, s).1
    {
      if !cmd.JObj? {
        return;
      }
      var fields := cmd.fields;
      var t := if "message_type" in fields then fields["message_type"] else JStr("None");
      fields := fields - {"message_type"};
      if t == JStr("poweroff") {
        actions := actions + [PowerOff];
      }
      if t == JStr("time_update") {
        if "time" in fields {
          actions := actions + [SetClock(fields["time"])];
        }
      }
      if t == JStr("status") {
        var _ := SendStatus(s);
      }
    }

    /** The command loop over a run of passes; each failure is swallowed
      and the loop goes on. */
    method CommandLoop(its: seq<Iteration>)
      modifies this`written, this`actions
      ensures written == old(written) + Frames(dumps, Outputs(its))
      ensures actions == old(actions) + Actions(its)
    {
      for i := 0 to |its|
        invariant written == old(written) + Frames(dumps, Outputs(its[..i]))
        invariant actions == old(actions) + Actions(its[..i])
      {
        assert its[..i + 1][..i] == its[..i];
        if its[i].opens && its[i].line.Some? {
          Handle(its[i].line.value, its[i].snapshot);
        }
      }
      assert its[..|its|] == its;
    }

    /** The whole agent: open the port (a run of attempts, `true` where the
      open succeeds), the startup sequence, then the command loop over `its`.
      The result is the error that ended the agent; `None` means it is still
      waiting for the port or still serving commands. */
    method RunService(attempts: seq<bool>, exit: CloudInitExit, s: Snapshot, its: seq<Iteration>)
      returns (r: Option<PyError>)
      modifies this`written, this`actions
      ensures (forall j | 0 <= j < |attempts| :: !attempts[j]) ==>
        r.None? && written == old(written) && actions == old(actions)
      ensures (exists j | 0 <= j < |attempts| :: attempts[j]) ==>
        var (msgs, started) := StartupMessages(exit, s);
        && r == (if started.Err? then Some(started.error) else None)
        && written == old(written) + Frames(dumps, msgs) + (if started.Ok? then Frames(dumps, Outputs(its)) else [])
        && actions == old(actions) + (if started.Ok? then Actions(its) else [])
    {
      var port := OpenPort(attempts);
      if port.None? {
        return None;
      }
      var started := Startup(exit, s);
      if started.Err? {
        return Some(started.error);
      }
      CommandLoop(its);
      return None;
    }
  }

  /** Opening `/dev/hvc1` until it succeeds: the index of the first attempt
      that succeeds, or `None` when none of the given attempts does (the
      source then keeps retrying for ever). */
  method OpenPort(attempts: seq<bool>) returns (r: Option<nat>)
    ensures r.Some? ==> r.value < |attempts| && attempts[r.value]
    ensures r.Some? ==> forall j | 0 <= j < r.value :: !attempts[j]
    ensures r.None? <==> forall j | 0 <= j < |attempts| :: !attempts[j]
  {
    var i := 0;
    while i < |attempts|
      invariant 0 <= i <= |attempts|
      invariant forall j | 0 <= j < i :: !attempts[j]
    {
      if attempts[i] {
        return Some(i);
      }
      i := i + 1;
    }
    return None;
  }
}
