/** The lifecycle controller of the newer revision (`VMManager` and
    `Controller` of `macos_virt/controller.py`): the status fold over the
    guest's messages, and a host whose VM records, disks and started runner
    processes the operations change. */
module Controller {
  import opened Wrappers
  import opened Strings
  import opened Values
  import opened Vm
  import opened Profiles
  import Agent

  /** The keys `print_status` reads from a "running" message, in its order. */
  const PrintedKeys: seq<string> := ["cpu_count", "cpu_usage", "memory_usage", "root_fs_usage", "network_addresses"]

  /** The record on disk after a status message, and what the message raised, if anything. */
  datatype Step = Step(saved: Record, raised: Option<Raised>)

  /** A "running" message that `update_vm_status` can complete: it carries
      every printed key, and its address list iterates into entries that all
      unpack into string addresses. */
  predicate CompletesStart(msg: Json)
    requires msg.JObj?
  {
    && (forall k | k in PrintedKeys :: k in msg.fields)
    && Items(msg.fields["network_addresses"]).Ok?
    && WellFormedEntries(NewIpRule, Items(msg.fields["network_addresses"]).value)
  }

  /** `update_vm_status` of the newer revision. It saves the record with the
      message's status; on "running" it prints the readings, takes the last
      address starting with `192.168`, saves again and raises `VMStarted`. */
  function ApplyStatus(rec: Record, msg: Json): (r: Step)
    ensures !msg.JObj? ==> r == Step(rec, Some(Py(TypeError)))
    ensures msg.JObj? && "status" !in msg.fields ==> r == Step(rec, Some(Py(KeyError)))
    ensures msg.JObj? && "status" in msg.fields ==> r.saved.status == msg.fields["status"]
    ensures r.saved == rec.(status := r.saved.status, ipAddress := r.saved.ipAddress)
    ensures r.saved.ipAddress != rec.ipAddress ==> r.raised == Some(VMStarted)
    ensures r.raised.None? <==> msg.JObj? && "status" in msg.fields && msg.fields["status"] != StatusRunning
    ensures r.raised == Some(VMStarted) <==>
      msg.JObj? && "status" in msg.fields && msg.fields["status"] == StatusRunning && CompletesStart(msg)
    ensures r.raised == Some(VMStarted) ==>
      var last := LastAccepted(NewIpRule, Items(msg.fields["network_addresses"]).value);
      r.saved.ipAddress == if last.Some? then last else rec.ipAddress
  {
    if !msg.JObj? then Step(rec, Some(Py(TypeError)))
    else if "status" !in msg.fields then Step(rec, Some(Py(KeyError)))
    else
      var status := msg.fields["status"];
      var rec1 := rec.(status := status);
      if status != StatusRunning then Step(rec1, None)
      else if exists k | k in PrintedKeys :: k !in msg.fields then Step(rec1, Some(Py(KeyError)))
      else
        match Items(msg.fields["network_addresses"])
        case Err(e) => Step(rec1, Some(Py(e)))
        case Ok(entries) =>
          ScanMeaning(NewIpRule, entries, rec.ipAddress);
          match ScanAddresses(NewIpRule, entries, rec.ipAddress)
          case Err(e) => Step(rec1, Some(Py(e)))
          case Ok(ip) => Step(rec1.(ipAddress := ip), Some(VMStarted))
  }

  /** `watch_initialization`: apply line after line until one raises. A line
      `json.loads` rejects raises `JSONDecodeError`, and so does the empty
      line a read returns once the guest falls silent; a read that fails
      raises `SerialException`, leaving the record as last saved. */
  function Watch(rec: Record, lines: seq<Line>): (r: Step)
    ensures r.raised.Some?
    ensures r.saved == rec.(status := r.saved.status, ipAddress := r.saved.ipAddress)
    ensures r.raised == Some(VMStarted) ==> IsProvisioned(r.saved)
    ensures |lines| == 0 ==> r == Step(rec, Some(Py(JSONDecodeError)))
    ensures |lines| > 0 && lines[0].Rejected? ==> r == Step(rec, Some(Py(JSONDecodeError)))
    ensures |lines| > 0 && lines[0].ReadFails? ==> r == Step(rec, Some(Py(SerialException)))
    decreases |lines|
  {
    if lines == [] || lines[0].Rejected? then Step(rec, Some(Py(JSONDecodeError)))
    else if lines[0].ReadFails? then Step(rec, Some(Py(SerialException)))
    else
      var st := ApplyStatus(rec, lines[0].msg);
      if st.raised.Some? then st else Watch(st.saved, lines[1..])
  }

  /** Messages that are not "running" only record their status: the watch
      goes on from the record they leave. */
  lemma WatchSkipsProgress(rec: Record, msg: Json, rest: seq<Line>)
    requires msg.JObj? && "status" in msg.fields && msg.fields["status"] != StatusRunning
    ensures Watch(rec, [Got(msg)] + rest) == Watch(rec.(status := msg.fields["status"]), rest)
  {
    assert ([Got(msg)] + rest)[1..] == rest;
  }

  /** The pairs the agent reports all unpack into string addresses, under
      either revision's address test. */
  lemma {:induction false} InetPairsWellFormed(rule: IpRule, addrs: seq<Agent.IfAddr>)
    ensures WellFormedEntries(rule, Agent.InetPairs(addrs))
    decreases |addrs|
  {
    if addrs != [] {
      var n := |addrs| - 1;
      InetPairsWellFormed(rule, addrs[..n]);
      var init := Agent.InetPairs(addrs[..n]);
      if addrs[n].family == "AF_INET" {
        var r := init + [Agent.AddressPair(addrs[n])];
        assert forall i | 0 <= i < |init| :: r[i] == init[i];
        assert EntryAddress(rule, r[|init|]).Ok?;
      }
    }
  }

  /** A heartbeat from the agent completes the start: the record says
      "running", takes the last `192.168` address the guest's main interface
      reports (or keeps the one it had), and `VMStarted` is raised. */
  lemma HeartbeatStartsVm(rec: Record, s: Agent.Snapshot)
    requires Agent.Heartbeat(s).Ok?
    ensures var pairs := Agent.InetPairs(s.interfaces[Agent.MainInterface(s)]);
      var last := LastAccepted(NewIpRule, pairs);
      ApplyStatus(rec, Agent.Heartbeat(s).value) ==
        Step(rec.(status := StatusRunning, ipAddress := if last.Some? then last else rec.ipAddress), Some(VMStarted))
  {
    var h := Agent.Heartbeat(s).value;
    InetPairsWellFormed(NewIpRule, s.interfaces[Agent.MainInterface(s)]);
    assert forall k | k in PrintedKeys :: k in Agent.HeartbeatKeys;
  }

  /** The agent's startup sequence, read by `watch_initialization`, starts
      the VM: whatever cloud-init reported, the heartbeat that follows ends
      the watch with `VMStarted` and a record that says "running". */
  lemma StartupSequenceStartsVm(rec: Record, exit: Agent.CloudInitExit, s: Agent.Snapshot, rest: seq<Line>)
    requires exit != Agent.NotFound && Agent.Heartbeat(s).Ok?
    ensures var msgs := Agent.StartupMessages(exit, s).0;
      var w := Watch(rec, [Got(msgs[0]), Got(msgs[1]), Got(msgs[2])] + rest);
      w.raised == Some(VMStarted) && IsProvisioned(w.saved)
      && w.saved == ApplyStatus(rec, Agent.Heartbeat(s).value).saved
  {
    var msgs := Agent.StartupMessages(exit, s).0;
    var lines := [Got(msgs[0]), Got(msgs[1]), Got(msgs[2])] + rest;
    var rec1 := rec.(status := JStr("initializing"));
    var rec2 := rec1.(status := msgs[1].fields["status"]);
    WatchSkipsProgress(rec, msgs[0], lines[1..]);
    assert lines == [Got(msgs[0])] + lines[1..];
    WatchSkipsProgress(rec1, msgs[1], lines[2..]);
    assert lines[1..] == [Got(msgs[1])] + lines[2..];
    HeartbeatStartsVm(rec2, s);
    HeartbeatStartsVm(rec, s);
    assert lines[2..][0] == Got(msgs[2]);
  }

  /** A guest that dies after its first message closes the control device:
      the watch raises `SerialException`, and the record keeps the status
      "initializing". */
  lemma DyingGuestFailsWatch(rec: Record, exit: Agent.CloudInitExit, s: Agent.Snapshot)
    ensures var msgs := Agent.StartupMessages(exit, s).0;
      Watch(rec, [Got(msgs[0]), ReadFails]) ==
        Step(rec.(status := JStr("initializing")), Some(Py(SerialException)))
  {
    var msgs := Agent.StartupMessages(exit, s).0;
    WatchSkipsProgress(rec, msgs[0], [ReadFails]);
  }

  /** What `boot_vm` leaves behind once the runner is started. The control
      socket is opened twice: when the first open fails, the record is kept
      and the runner's exit status is raised; when the first succeeds and the
      watch's own open fails, the record is kept and the uncaught
      `SerialException` propagates; otherwise the outcome of the watch. */
  function BootResult(rec: Record, controlOpens: bool, watchOpens: bool, exitCode: int,
                      lines: seq<Line>): (r: Step)
    ensures r.raised.Some?
    ensures r.saved == rec.(status := r.saved.status, ipAddress := r.saved.ipAddress)
    ensures !controlOpens ==> r == Step(rec, Some(InternalError(exitCode)))
    ensures controlOpens && !watchOpens ==> r == Step(rec, Some(Py(SerialException)))
    ensures controlOpens && watchOpens ==> r == Watch(rec, lines)
    ensures r.raised == Some(VMStarted) ==> controlOpens && watchOpens && IsProvisioned(r.saved)
  {
    if !controlOpens then Step(rec, Some(InternalError(exitCode)))
    else if !watchOpens then Step(rec, Some(Py(SerialException)))
    else Watch(rec, lines)
  }

  /** `after` is `before` with at most the status and the address of `name`'s
      record changed. */
  predicate OnlyStatusChanged(before: map<string, Record>, after: map<string, Record>, name: string) {
    && name in before && name in after
    && after == before[name := before[name].(status := after[name].status, ipAddress := after[name].ipAddress)]
  }

  /** Leaving the records alone changes no status. */
  lemma OnlyStatusChangedRefl(vms: map<string, Record>, name: string)
    requires name in vms
    ensures OnlyStatusChanged(vms, vms, name)
  {
    assert vms[name] == vms[name].(status := vms[name].status, ipAddress := vms[name].ipAddress);
  }

  /** What the controller finds outside itself during one command: the size
      of the copied base disk, the user name and public key, the profile's
      loaded cloud-init template and the two script files it may embed, the
      names at the root of the boot volume, the temporary file names, whether
      the control socket opens at the first attempt (the probe in `boot_vm`,
      or the one in `send_message`) and again for `watch_initialization`,
      the runner's exit status, and what each read of the control device
      gives. */
  datatype Env = Env(
    baseDiskSize: int,
    username: string,
    sshKey: string,
    template: Json,
    installBoot: string,
    serviceScript: string,
    bootListing: seq<string>,
    tempKernel: string,
    tempInitrd: string,
    controlOpens: bool,
    watchOpens: bool,
    runnerExitCode: int,
    guestLines: seq<Line>)

  /** A runner process started with `Popen`: its working directory and arguments. */
  datatype Launch = Launch(cwd: string, argv: seq<string>)

  /** The part of a host that starting a VM can change: the records, the
      runners launched, the disk sizes and the user data of each VM. */
  datatype HostState = HostState(
    vms: map<string, Record>,
    launches: seq<Launch>,
    rootDisks: map<string, int>,
    bootDisks: map<string, int>,
    userData: map<string, Json>)

  /** The message `stop` sends. */
  const PowerOffMessage: Json := JObj(map["message_type" := JStr("poweroff")])

  /** `ssh` run by `shell`: no host-key check, the controller's identity, the
      VM's address, then the caller's arguments unchanged. */
  function SshArgv(keyPath: string, ip: string, args: seq<string>): (argv: seq<string>)
    ensures |argv| == 6 + |args| && argv[6..] == args
    ensures argv[..6] == ["/usr/bin/ssh", "/usr/bin/ssh", "-oStrictHostKeyChecking=no", "-i", keyPath, ip]
  {
    ["/usr/bin/ssh", "/usr/bin/ssh", "-oStrictHostKeyChecking=no", "-i", keyPath, ip] + args
  }

  /** The host as the newer revision sees it. `vms` holds each VM's
      `vm.json` (its keys are what `get_valid_vms` finds), `pidfiles` the
      runner's pid files, `rootDisks` and `bootDisks` the disk sizes in
      bytes, `userData` the cloud-init document put on each VM's ISO,
      `launches` the runner processes started, `controlWrites` the lines
      written to VMs' control sockets and `dirs` the VM directories that
      exist. `alive` is the set of pids for which
      `kill(pid, 0)` succeeds, `profiles` the registry, `dumps` `json.dumps`. */
  class Host {
    const basePath: string
    const runnerPath: string
    const keyPath: string
    const files: VmFiles
    const profiles: map<string, Profile>
    const alive: set<int>
    const dumps: Json -> string
    const cache: ProfileCache
    var vms: map<string, Record>
    var pidfiles: map<string, PidFile>
    var rootDisks: map<string, int>
    var bootDisks: map<string, int>
    var userData: map<string, Json>
    var launches: seq<Launch>
    var controlWrites: seq<(string, string)>
    var dirs: set<string>

    constructor(basePath: string, runnerPath: string, keyPath: string, files: VmFiles,
                profiles: map<string, Profile>, alive: set<int>, dumps: Json -> string,
                cache: ProfileCache, vms: map<string, Record>, pidfiles: map<string, PidFile>,
                dirs: set<string>)
      ensures this.basePath == basePath && this.runnerPath == runnerPath && this.keyPath == keyPath
      ensures this.files == files && this.profiles == profiles && this.alive == alive
      ensures this.dumps == dumps && this.cache == cache
      ensures this.vms == vms && this.pidfiles == pidfiles && this.dirs == dirs
      ensures rootDisks == map[] && bootDisks == map[] && userData == map[]
      ensures launches == [] && controlWrites == []
    {
      this.basePath := basePath;
      this.runnerPath := runnerPath;
      this.keyPath := keyPath;
      this.files := files;
      this.profiles := profiles;
      this.alive := alive;
      this.dumps := dumps;
      this.cache := cache;
      this.vms := vms;
      this.pidfiles := pidfiles;
      this.dirs := dirs;
      rootDisks := map[];
      bootDisks := map[];
      userData := map[];
      launches := [];
      controlWrites := [];
    }

    /** The path `get_vm_directory` returns. */
    function VmDirectory(name: string): string {
      Join(basePath, name)
    }

    /** `get_vm_directory`: the directory is created if it is missing. */
    method GetVmDirectory(name: string) returns (path: string)
      modifies this`dirs
      ensures dirs == old(dirs) + {name} && path == VmDirectory(name)
    {
      dirs := dirs + {name};
      path := VmDirectory(name);
    }

    /** `get_valid_vms`: the VMs that have a `vm.json` (as a set: `glob`
      promises no order). */
    function ValidVms(): set<string>
      reads this`vms
    {
      vms.Keys
    }

    /** `is_running` for `name`. */
    function Running(name: string): Result<bool, PyError>
      reads this`pidfiles
    {
      IsRunning(if name in pidfiles then Some(pidfiles[name]) else None, alive)
    }

    /** Constructing `VMManager`: `vm.json` must exist, and its profile must
      be registered. */
    function Manager(name: string): (r: Result<Profile, Raised>)
      reads this`vms
      ensures r.Ok? <==> name in vms && vms[name].profile in profiles
      ensures r.Ok? ==> r.value == profiles[vms[name].profile]
      ensures name !in vms ==> r == Err(Py(FileNotFoundError))
      ensures name in vms && vms[name].profile !in profiles ==> r == Err(Py(KeyError))
    {
      if name !in vms then Err(Py(FileNotFoundError))
      else if vms[name].profile !in profiles then Err(Py(KeyError))
      else Ok(profiles[vms[name].profile])
    }

    /** The runner started by `provision`: the kernel and initrd come from
      the profile's cache. */
    function CacheLaunch(name: string, profile: Profile, rec: Record): Launch {
      var paths := CachePaths(cache.basePath, cache.names, profile);
      Launch(VmDirectory(name), RunnerArgv(runnerPath, CmdLine, paths[0], paths[1], files, rec))
    }

    /** The runner started by `boot_normally`: the kernel and initrd are the
      temporary copies taken from the boot volume. */
    function VolumeLaunch(name: string, env: Env, rec: Record): Launch {
      Launch(VmDirectory(name), RunnerArgv(runnerPath, CmdLine, env.tempKernel, env.tempInitrd, files, rec))
    }

    /** The host's changeable part, as `HostState`. */
    function State(): HostState
      reads this`vms, this`launches, this`rootDisks, this`bootDisks, this`userData
    {
      HostState(vms, launches, rootDisks, bootDisks, userData)
    }

    /** What `provision` does, from `s` to `s'` raising `r`, when the
      profile's cache was complete (`cached`) or not: a failed
      post-processing changes nothing; otherwise both disks are sized, and
      then a rendering error stops it, or the user data is written and the
      runner is started from the cached kernel and initrd. */
    predicate Provisioned(name: string, profile: Profile, env: Env, cached: bool,
                          s: HostState, s': HostState, r: Raised)
      requires name in s.vms
    {
      var content := Render(profile, env.template, env.username, env.sshKey, env.installBoot, env.serviceScript);
      var b := BootResult(s.vms[name], env.controlOpens, env.watchOpens, env.runnerExitCode, env.guestLines);
      if !cached && ProcessDownloaded(profile).Err? then
        r == Py(ProcessDownloaded(profile).error) && s' == s
      else
        && s'.rootDisks == s.rootDisks[name := PaddedSize(env.baseDiskSize, s.vms[name].diskSize)]
        && s'.bootDisks == s.bootDisks[name := BootImageBlocks * MB]
        && if content.Err? then
             r == Py(content.error) && s'.vms == s.vms && s'.userData == s.userData && s'.launches == s.launches
           else
             && s'.userData == s.userData[name := content.value]
             && s'.launches == s.launches + [CacheLaunch(name, profile, s.vms[name])]
             && r == b.raised.value && s'.vms == s.vms[name := b.saved]
    }

    /** What `boot_normally` does, from `s` to `s'` raising `r`: a boot
      volume without the profile's kernel and initrd changes nothing;
      otherwise one runner is started from the temporary copies, and the
      record becomes the boot's result. Disks and user data are kept. */
    predicate BootedNormally(name: string, profile: Profile, env: Env, s: HostState, s': HostState, r: Raised)
      requires name in s.vms
    {
      var boot := BootFiles(profile, env.bootListing);
      var b := BootResult(s.vms[name], env.controlOpens, env.watchOpens, env.runnerExitCode, env.guestLines);
      if boot.Err? then r == Py(IndexError) && s' == s
      else if boot.value.0 !in env.bootListing || boot.value.1 !in env.bootListing then
        r == Py(ResourceNotFound) && s' == s
      else
        && s' == s.(launches := s.launches + [VolumeLaunch(name, env, s.vms[name])], vms := s.vms[name := b.saved])
        && r == b.raised.value
    }

    /** The status dispatch of `VMManager.start` for a VM that is not
      running: "uninitialized" is provisioned, "running" is booted
      normally, and any other status returns with nothing changed. */
    predicate StartedStopped(name: string, profile: Profile, env: Env, cached: bool,
                             s: HostState, s': HostState, r: Outcome<()>)
      requires name in s.vms
    {
      if s.vms[name].status == Uninitialized then
        r.Raise? && Provisioned(name, profile, env, cached, s, s', r.raised)
      else if s.vms[name].status == StatusRunning then
        r.Raise? && BootedNormally(name, profile, env, s, s', r.raised)
      else r == Normal(()) && s' == s
    }

    /** `VMManager.start` given the liveness probe's answer `running`: an
      unreadable pid file raises `ValueError` and a running VM raises
      `VMRunning`, both changing nothing; otherwise `StartedStopped`. */
    predicate Started(name: string, profile: Profile, env: Env, cached: bool, running: Result<bool, PyError>,
                      s: HostState, s': HostState, r: Outcome<()>)
      requires name in s.vms
    {
      if running.Err? then r == Raise(Py(ValueError)) && s' == s
      else if running.value then r == Raise(VMRunning) && s' == s
      else StartedStopped(name, profile, env, cached, s, s', r)
    }

    /** `watch_initialization`: open the control socket through
      `get_status_port`, whose `SerialException` is not caught, then run the
      `while True` loop over the guest's lines. */
    method WatchInitialization(name: string, portOpens: bool, lines: seq<Line>) returns (r: Raised)
      requires name in vms
      modifies this`vms
      ensures !portOpens ==> r == Py(SerialException) && vms == old(vms)
      ensures portOpens ==> vms == old(vms)[name := Watch(old(vms[name]), lines).saved]
      ensures portOpens ==> r == Watch(old(vms[name]), lines).raised.value
    {
      if !portOpens {
        return Py(SerialException);
      }
      var i := 0;
      while true
        invariant 0 <= i <= |lines|
        invariant name in vms && vms == old(vms)[name := vms[name]]
        invariant Watch(vms[name], lines[i..]) == Watch(old(vms[name]), lines)
        decreases |lines| - i
      {
        if i == |lines| || lines[i].Rejected? {
          return Py(JSONDecodeError);
        }
        if lines[i].ReadFails? {
          return Py(SerialException);
        }
        var st := ApplyStatus(vms[name], lines[i].msg);
        vms := vms[name := st.saved];
        if st.raised.Some? {
          return st.raised.value;
        }
        assert lines[i..][1..] == lines[i + 1..];
        i := i + 1;
      }
    }

    /** `boot_vm`: start the runner in the VM's directory, then watch the
      guest; a control socket that does not open means the runner died, and
      its exit status is reported, while a failure of the watch's second open
      propagates as `SerialException`. */
    method BootVm(name: string, kernel: string, initrd: string, env: Env) returns (r: Raised)
      requires name in vms
      modifies this`vms, this`launches
      ensures launches == old(launches) +
        [Launch(VmDirectory(name), RunnerArgv(runnerPath, CmdLine, kernel, initrd, files, old(vms[name])))]
      ensures var b := BootResult(old(vms[name]), env.controlOpens, env.watchOpens, env.runnerExitCode, env.guestLines);
        r == b.raised.value && vms == old(vms)[name := b.saved]
      ensures OnlyStatusChanged(old(vms), vms, name)
    {
      launches := launches + [Launch(VmDirectory(name), RunnerArgv(runnerPath, CmdLine, kernel, initrd, files, vms[name]))];
      if !env.controlOpens {
        return InternalError(env.runnerExitCode);
      }
      r := WatchInitialization(name, env.watchOpens, env.guestLines);
    }

    /** The disk part of `provision`: the root image is the copied base disk
      padded with `PaddingChunks` blocks of one MiB, and the boot image is
      written as 256 zero-filled blocks of one MiB. */
    method PrepareDisks(name: string, baseSize: int, diskSizeMb: int)
      modifies this`rootDisks, this`bootDisks
      ensures rootDisks == old(rootDisks)[name := PaddedSize(baseSize, diskSizeMb)]
      ensures bootDisks == old(bootDisks)[name := BootImageBlocks * MB]
    {
      rootDisks := rootDisks[name := baseSize];
      bootDisks := bootDisks[name := 0];
      for i := 0 to BootImageBlocks
        invariant bootDisks == old(bootDisks)[name := i * MB]
        invariant rootDisks == old(rootDisks)[name := baseSize]
      {
        bootDisks := bootDisks[name := bootDisks[name] + MB];
      }
      var chunks := PaddingChunks(diskSizeMb, rootDisks[name]);
      // `range(chunks)` is empty when the base disk is already larger
      var count := if chunks > 0 then chunks else 0;
      for n := 0 to count
        invariant rootDisks == old(rootDisks)[name := baseSize + n * MB]
        invariant bootDisks == old(bootDisks)[name := BootImageBlocks * MB]
      {
        rootDisks := rootDisks[name := rootDisks[name] + MB];
      }
    }

    /** The cloud-init part of `provision`: render the profile's document
      for the user and key, and put it on the VM's ISO as its user data. */
    method WriteCloudInit(name: string, profile: Profile, env: Env) returns (r: Result<(), PyError>)
      modifies this`userData
      ensures var content := Render(profile, env.template, env.username, env.sshKey, env.installBoot, env.serviceScript);
        if content.Err? then r == Err(content.error) && userData == old(userData)
        else r == Ok(()) && userData == old(userData)[name := content.value]
    {
      var content := Render(profile, env.template, env.username, env.sshKey, env.installBoot, env.serviceScript);
      if content.Err? {
        return Err(content.error);
      }
      userData := userData[name := content.value];
      return Ok(());
    }

    /** `provision`: fetch the profile's files, prepare the disks, render the
      cloud-init data onto the VM's ISO, and boot from the cached kernel and
      initrd. It always ends by raising: the profile's post-processing
      error, the rendering error, or whatever the boot raised; a profile
      whose files cannot be fetched changes nothing of the host. */
    method Provision(name: string, profile: Profile, env: Env) returns (r: Raised)
      requires name in vms
      modifies this`vms, this`launches, this`rootDisks, this`bootDisks, this`userData
      modifies cache`dirs, cache`files, cache`downloads
      ensures Provisioned(name, profile, env, old(cache.AllPresent(profile)), old(State()), State(), r)
      ensures OnlyStatusChanged(old(vms), vms, name)
      ensures r == VMStarted ==> launches == old(launches) + [CacheLaunch(name, profile, old(vms[name]))] && IsProvisioned(vms[name])
    {
      OnlyStatusChangedRefl(vms, name);
      var located := cache.FileLocations(profile);
      if located.Err? {
        return Py(located.error);
      }
      var paths := located.value;
      PrepareDisks(name, env.baseDiskSize, vms[name].diskSize);
      var written := WriteCloudInit(name, profile, env);
      if written.Err? {
        return Py(written.error);
      }
      r := BootVm(name, paths[0], paths[1], env);
    }

    /** `boot_normally`: find the kernel and initrd on the VM's boot volume,
      copy them to temporary files and boot from those. */
    method BootNormally(name: string, profile: Profile, env: Env) returns (r: Raised)
      requires name in vms
      modifies this`vms, this`launches
      ensures BootedNormally(name, profile, env, old(State()), State(), r)
      ensures r == VMStarted ==> launches == old(launches) + [VolumeLaunch(name, env, old(vms[name]))] && IsProvisioned(vms[name])
      ensures OnlyStatusChanged(old(vms), vms, name)
    {
      var boot := BootFiles(profile, env.bootListing);
      if boot.Err? {
        return Py(boot.error);
      }
      var (kernel, initrd) := boot.value;
      if kernel !in env.bootListing || initrd !in env.bootListing {
        return Py(ResourceNotFound);
      }
      r := BootVm(name, env.tempKernel, env.tempInitrd, env);
    }

    /** The status dispatch of `VMManager.start`, for a VM that is not
      running: "uninitialized" is provisioned, "running" is booted from its
      boot volume, and any other status does nothing. */
    method StartStopped(name: string, profile: Profile, env: Env) returns (r: Outcome<()>)
      requires name in vms
      modifies this`vms, this`launches, this`rootDisks, this`bootDisks, this`userData
      modifies cache`dirs, cache`files, cache`downloads
      ensures StartedStopped(name, profile, env, old(cache.AllPresent(profile)), old(State()), State(), r)
      ensures OnlyStatusChanged(old(vms), vms, name)
      ensures r == Raise(VMStarted) ==> IsProvisioned(vms[name])
    {
      if vms[name].status == Uninitialized {
        var raised := Provision(name, profile, env);
        return Raise(raised);
      } else if vms[name].status == StatusRunning {
        var raised := BootNormally(name, profile, env);
        return Raise(raised);
      }
      OnlyStatusChangedRefl(vms, name);
      return Normal(());
    }

    /** `VMManager.start`: a running VM is refused; otherwise the record's
      status decides (`StartStopped`). Whatever the boot does, the VM keeps
      its configuration: only its status and address change. */
    method VmStart(name: string, profile: Profile, env: Env) returns (r: Outcome<()>)
      requires name in vms
      modifies this`vms, this`launches, this`rootDisks, this`bootDisks, this`userData
      modifies cache`dirs, cache`files, cache`downloads
      ensures Started(name, profile, env, old(cache.AllPresent(profile)), Running(name), old(State()), State(), r)
      ensures OnlyStatusChanged(old(vms), vms, name)
      ensures r == Raise(VMStarted) ==> IsProvisioned(vms[name])
    {
      var running := Running(name);
      if running.Err? {
        OnlyStatusChangedRefl(vms, name);
        return Raise(Py(running.error));
      }
      if running.value {
        OnlyStatusChangedRefl(vms, name);
        return Raise(VMRunning);
      }
      r := StartStopped(name, profile, env);
    }

    /** `Controller.start` for a name that has a record: the VM is started
      again only when its record says it was provisioned; otherwise the name
      is a duplicate. */
    method StartKnown(name: string, env: Env) returns (r: Outcome<()>)
      requires name in vms
      modifies this`vms, this`launches, this`rootDisks, this`bootDisks, this`userData
      modifies cache`dirs, cache`files, cache`downloads
      ensures old(Manager(name)).Err? ==> r == Raise(old(Manager(name)).error) && State() == old(State())
      ensures old(Manager(name)).Ok? && !IsProvisioned(old(vms[name])) ==>
        r == Raise(DuplicateVM) && State() == old(State())
      ensures old(Manager(name)).Ok? && IsProvisioned(old(vms[name])) ==>
        Started(name, old(Manager(name)).value, env, old(cache.AllPresent(Manager(name).value)), Running(name),
                old(State()), State(), r)
      ensures OnlyStatusChanged(old(vms), vms, name)
      ensures r == Raise(VMStarted) ==> IsProvisioned(vms[name])
    {
      var manager := Manager(name);
      if manager.Err? {
        OnlyStatusChangedRefl(vms, name);
        return Raise(manager.error);
      }
      if IsProvisioned(vms[name]) {
        r := VmStart(name, manager.value, env);
        return;
      }
      OnlyStatusChangedRefl(vms, name);
      return Raise(DuplicateVM);
    }

    /** `Controller.start` for a new name: a fresh record (status
      "uninitialized", no address, a `52:54:00` MAC address) is written
      before the profile is looked up, and the VM is then started, which
      provisions it. */
    method StartNew(profileName: string, name: string, cpus: int, memory: int, diskSize: int,
                    b0: Byte, b1: Byte, b2: Byte, env: Env) returns (r: Outcome<()>)
      requires name !in vms
      modifies this`vms, this`launches, this`rootDisks, this`bootDisks, this`userData
      modifies cache`dirs, cache`files, cache`downloads
      ensures var s := old(State()).(vms := old(vms)[name := NewRecord(profileName, cpus, memory, diskSize, b0, b1, b2)]);
        if profileName !in profiles then r == Raise(Py(KeyError)) && State() == s
        else Started(name, profiles[profileName], env, old(cache.AllPresent(profiles[profileName])), Running(name),
                     s, State(), r)
      ensures name in vms && OnlyStatusChanged(old(vms)[name := NewRecord(profileName, cpus, memory, diskSize, b0, b1, b2)], vms, name)
      ensures r == Raise(VMStarted) ==> IsProvisioned(vms[name])
    {
      vms := vms[name := NewRecord(profileName, cpus, memory, diskSize, b0, b1, b2)];
      var manager := Manager(name);
      if manager.Err? {
        OnlyStatusChangedRefl(vms, name);
        return Raise(manager.error);
      }
      r := VmStart(name, manager.value, env);
    }

    /** `Controller.start`: the VM's directory is made, then a known name is
      resumed (`StartKnown`) and a new one created and started (`StartNew`). */
    method Start(profileName: string, name: string, cpus: int, memory: int, diskSize: int,
                 b0: Byte, b1: Byte, b2: Byte, env: Env) returns (r: Outcome<()>)
      modifies this`vms, this`launches, this`rootDisks, this`bootDisks, this`userData, this`dirs
      modifies cache`dirs, cache`files, cache`downloads
      ensures dirs == old(dirs) + {name} && name in vms
      ensures name in old(vms) && old(Manager(name)).Err? ==> r == Raise(old(Manager(name)).error) && State() == old(State())
      ensures name in old(vms) && old(Manager(name)).Ok? && !IsProvisioned(old(vms[name])) ==>
        r == Raise(DuplicateVM) && State() == old(State())
      ensures name in old(vms) && old(Manager(name)).Ok? && IsProvisioned(old(vms[name])) ==>
        Started(name, old(Manager(name)).value, env, old(cache.AllPresent(Manager(name).value)), Running(name),
                old(State()), State(), r)
      ensures name !in old(vms) ==>
        var s := old(State()).(vms := old(vms)[name := NewRecord(profileName, cpus, memory, diskSize, b0, b1, b2)]);
        if profileName !in profiles then r == Raise(Py(KeyError)) && State() == s
        else Started(name, profiles[profileName], env, old(cache.AllPresent(profiles[profileName])), Running(name),
                     s, State(), r)
      ensures name in old(vms) ==> OnlyStatusChanged(old(vms), vms, name)
      ensures name !in old(vms) ==>
        OnlyStatusChanged(old(vms)[name := NewRecord(profileName, cpus, memory, diskSize, b0, b1, b2)], vms, name)
      ensures r == Raise(VMStarted) ==> IsProvisioned(vms[name])
    {
      var known := name in vms;
      var _ := GetVmDirectory(name);
      if known {
        r := StartKnown(name, env);
      } else {
        r := StartNew(profileName, name, cpus, memory, diskSize, b0, b1, b2, env);
      }
    }

    /** `Controller.stop`: the VM must have a record and be running, and its
      control socket must open; then the power-off message is written to it
      as one JSON line. Asking for an unknown name still creates its
      directory. */
    method Stop(name: string, env: Env) returns (r: Outcome<()>)
      modifies this`dirs, this`controlWrites
      ensures dirs == old(dirs) + {name}
      ensures Manager(name).Err? ==> r == Raise(Manager(name).error)
      ensures Manager(name).Ok? && Running(name).Err? ==> r == Raise(Py(ValueError))
      ensures Manager(name).Ok? && Running(name) == Ok(false) ==> r == Raise(VMNotRunning)
      ensures Manager(name).Ok? && Running(name) == Ok(true) && !env.controlOpens ==> r == Raise(Py(SerialException))
      ensures r.Normal? <==> Manager(name).Ok? && Running(name) == Ok(true) && env.controlOpens
      ensures r.Normal? ==> controlWrites == old(controlWrites) + [(name, dumps(PowerOffMessage) + "\r\n")]
      ensures r.Raise? ==> controlWrites == old(controlWrites)
    {
      var _ := GetVmDirectory(name);
      var manager := Manager(name);
      if manager.Err? {
        return Raise(manager.error);
      }
      var running := Running(name);
      if running.Err? {
        return Raise(Py(running.error));
      }
      if !running.value {
        return Raise(VMNotRunning);
      }
      if !env.controlOpens {
        return Raise(Py(SerialException));
      }
      controlWrites := controlWrites + [(name, dumps(PowerOffMessage) + "\r\n")];
      return Normal(());
    }

    /** `Controller.delete`: only a known VM that is not running is
      deleted, and deleting removes its whole directory. */
    method Delete(name: string) returns (r: Outcome<()>)
      modifies this`dirs, this`vms, this`pidfiles, this`rootDisks, this`bootDisks, this`userData
      ensures name !in old(vms) ==> r == Raise(VMDoesntExist) && unchanged(this)
      ensures name in old(vms) && old(Manager(name)).Err? ==> r == Raise(old(Manager(name)).error)
      ensures name in old(vms) && old(Manager(name)).Ok? && old(Running(name)).Err? ==> r == Raise(Py(ValueError))
      ensures name in old(vms) && old(Manager(name)).Ok? && old(Running(name)) == Ok(true) ==> r == Raise(VMRunning)
      ensures r.Raise? ==>
        && vms == old(vms) && pidfiles == old(pidfiles) && rootDisks == old(rootDisks)
        && bootDisks == old(bootDisks) && userData == old(userData)
      ensures name in old(vms) && r.Raise? ==> dirs == old(dirs) + {name}
      ensures r.Normal? <==> name in old(vms) && old(Manager(name)).Ok? && old(Running(name)) == Ok(false)
      ensures r.Normal? ==>
        && vms == old(vms) - {name} && pidfiles == old(pidfiles) - {name}
        && rootDisks == old(rootDisks) - {name} && bootDisks == old(bootDisks) - {name}
        && userData == old(userData) - {name} && dirs == old(dirs) - {name}
    {
      if name !in vms {
        return Raise(VMDoesntExist);
      }
      var _ := GetVmDirectory(name);
      var manager := Manager(name);
      if manager.Err? {
        return Raise(manager.error);
      }
      var running := Running(name);
      if running.Err? {
        return Raise(Py(running.error));
      }
      if running.value {
        return Raise(VMRunning);
      }
      vms := vms - {name};
      pidfiles := pidfiles - {name};
      rootDisks := rootDisks - {name};
      bootDisks := bootDisks - {name};
      userData := userData - {name};
      dirs := dirs - {name};
      return Normal(());
    }

    /** `Controller.shell`: a known, running VM with an address is reached
      with `ssh`; the result is the argument vector `execl` replaces the
      process with. */
    method Shell(name: string, args: seq<string>) returns (r: Outcome<seq<string>>)
      modifies this`dirs
      ensures name !in vms ==> r == Raise(VMDoesntExist) && dirs == old(dirs)
      ensures name in vms ==> dirs == old(dirs) + {name}
      ensures name in vms && Manager(name).Err? ==> r == Raise(Manager(name).error)
      ensures name in vms && Manager(name).Ok? && Running(name).Err? ==> r == Raise(Py(ValueError))
      ensures name in vms && Manager(name).Ok? && Running(name) == Ok(false) ==> r == Raise(VMNotRunning)
      ensures name in vms && Manager(name).Ok? && Running(name) == Ok(true) && IpAddress(vms[name]).Err? ==>
        r == Raise(VMHasNoAssignedAddress)
      ensures r.Normal? <==>
        name in vms && Manager(name).Ok? && Running(name) == Ok(true) && IpAddress(vms[name]).Ok?
      ensures r.Normal? ==> r.value == SshArgv(keyPath, IpAddress(vms[name]).value, args)
    {
      if name !in vms {
        return Raise(VMDoesntExist);
      }
      var _ := GetVmDirectory(name);
      var manager := Manager(name);
      if manager.Err? {
        return Raise(manager.error);
      }
      var running := Running(name);
      if running.Err? {
        return Raise(Py(running.error));
      }
      if !running.value {
        return Raise(VMNotRunning);
      }
      var ip := IpAddress(vms[name]);
      if ip.Err? {
        return Raise(ip.error);
      }
      return Normal(SshArgv(keyPath, ip.value, args));
    }
  }
}
