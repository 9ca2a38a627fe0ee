/** The VM lifecycle of the older revision: `VMManager` and `Controller`.
    The runner is `vmcli`, a status message is saved to `vm.json` after
    every update, and a boot reads exactly three messages from the guest. */
module LegacyController {
  import opened Wrappers
  import opened Strings
  import opened Values
  import opened Vm
  import opened LegacyProfiles
  import Agent
  import Controller

  /** The runner the older revision starts, found on `PATH`. */
  const LegacyRunner: string := "vmcli"

  /** The kernel command line of the older revision; the other options are
      those of the newer revision (`Vm.RunnerArgvLiteral`). */
  const LegacyCmdLine: string := "console=hvc0 root=/dev/vda"

  /** A "running" message that carries the guest's addresses. */
  predicate ReportsAddresses(msg: Json) {
    msg.JObj? && "status" in msg.fields && msg.fields["status"] == StatusRunning
    && "network_addresses" in msg.fields
  }

  /** `update_vm_status`: record the message's status and, for a "running"
      message with addresses, the last one containing `192.168.68`; then
      save the record. A message that raises is not saved: the error is
      returned and the record on disk stays as it was. */
  function ApplyLegacy(rec: Record, msg: Json): (r: Result<Record, PyError>)
    ensures !msg.JObj? ==> r == Err(TypeError)
    ensures msg.JObj? && "status" !in msg.fields ==> r == Err(KeyError)
    ensures r.Ok? <==>
      && msg.JObj? && "status" in msg.fields
      && (ReportsAddresses(msg) ==>
            var items := Items(msg.fields["network_addresses"]);
            items.Ok? && WellFormedEntries(LegacyIpRule, items.value))
    ensures r.Ok? ==> r.value == rec.(status := msg.fields["status"], ipAddress := r.value.ipAddress)
    ensures r.Ok? && !ReportsAddresses(msg) ==> r.value.ipAddress == rec.ipAddress
    ensures r.Ok? && ReportsAddresses(msg) ==>
      var last := LastAccepted(LegacyIpRule, Items(msg.fields["network_addresses"]).value);
      r.value.ipAddress == if last.Some? then last else rec.ipAddress
  {
    if !msg.JObj? then Err(TypeError)
    else if "status" !in msg.fields then Err(KeyError)
    else
      var rec1 := rec.(status := msg.fields["status"]);
      if !ReportsAddresses(msg) then Ok(rec1)
      else
        match Items(msg.fields["network_addresses"])
        case Err(e) => Err(e)
        case Ok(entries) =>
          ScanMeaning(LegacyIpRule, entries, rec.ipAddress);
          match ScanAddresses(LegacyIpRule, entries, rec.ipAddress)
          case Err(e) => Err(e)
          case Ok(ip) => Ok(rec1.(ipAddress := ip))
  }

  /** The record on disk after some reads, and whether a read raised. */
  datatype Update = Update(saved: Record, result: Result<(), PyError>)

  /** The `for x in range(count)` loop of `boot_vm`: read and apply one line
      each time. A line `json.loads` rejects, and the empty line a read
      returns once the guest falls silent, raise `JSONDecodeError`; a read
      that fails raises `SerialException`. Either keeps the record as last
      saved. */
  function ReadStatuses(rec: Record, lines: seq<Line>, count: nat): (r: Update)
    ensures r.saved == rec.(status := r.saved.status, ipAddress := r.saved.ipAddress)
    ensures count == 0 ==> r == Update(rec, Ok(()))
    ensures count > 0 && (lines == [] || lines[0].Rejected?) ==> r == Update(rec, Err(JSONDecodeError))
    ensures count > 0 && |lines| > 0 && lines[0].ReadFails? ==> r == Update(rec, Err(SerialException))
    ensures r.result.Ok? ==> count <= |lines| && forall i | 0 <= i < count :: lines[i].Got?
    ensures r.result.Ok? && count > 0 ==>
      lines[count - 1].msg.JObj? && "status" in lines[count - 1].msg.fields
      && r.saved.status == lines[count - 1].msg.fields["status"]
    decreases count
  {
    if count == 0 then Update(rec, Ok(()))
    else if lines == [] || lines[0].Rejected? then Update(rec, Err(JSONDecodeError))
    else if lines[0].ReadFails? then Update(rec, Err(SerialException))
    else
      match ApplyLegacy(rec, lines[0].msg)
      case Err(e) => Update(rec, Err(e))
      case Ok(rec1) =>
        var r := ReadStatuses(rec1, lines[1..], count - 1);
        assert forall i | 0 < i < |lines| :: lines[i] == lines[1..][i - 1];
        r
  }

  /** A message that is not a "running" report with addresses only records
      its status, and the reads go on from there. */
  lemma ReadSkipsProgress(rec: Record, msg: Json, rest: seq<Line>, count: nat)
    requires count > 0 && msg.JObj? && "status" in msg.fields && !ReportsAddresses(msg)
    ensures ReadStatuses(rec, [Got(msg)] + rest, count) ==
      ReadStatuses(rec.(status := msg.fields["status"]), rest, count - 1)
  {
    assert ([Got(msg)] + rest)[1..] == rest;
  }

  /** A heartbeat from the agent, read last, leaves the record "running"
      with the last `192.168.68` address of the guest's main interface (or
      the one it had). */
  lemma ReadHeartbeat(rec: Record, s: Agent.Snapshot, rest: seq<Line>)
    requires Agent.Heartbeat(s).Ok?
    ensures var last := LastAccepted(LegacyIpRule, Agent.InetPairs(s.interfaces[Agent.MainInterface(s)]));
      ReadStatuses(rec, [Got(Agent.Heartbeat(s).value)] + rest, 1) ==
        Update(rec.(status := StatusRunning, ipAddress := if last.Some? then last else rec.ipAddress), Ok(()))
  {
    var h := Agent.Heartbeat(s).value;
    Controller.InetPairsWellFormed(LegacyIpRule, s.interfaces[Agent.MainInterface(s)]);
    assert ReportsAddresses(h);
    assert ([Got(h)] + rest)[1..] == rest;
  }

  /** The three messages of the agent's startup sequence are exactly what a
      boot reads: the record ends "running", with the last `192.168.68`
      address of the guest's main interface (or the one it had), and
      nothing raises. */
  lemma StartupSequenceBoots(rec: Record, exit: Agent.CloudInitExit, s: Agent.Snapshot, rest: seq<Line>)
    requires exit != Agent.NotFound && Agent.Heartbeat(s).Ok?
    ensures var msgs := Agent.StartupMessages(exit, s).0;
      var pairs := Agent.InetPairs(s.interfaces[Agent.MainInterface(s)]);
      var last := LastAccepted(LegacyIpRule, pairs);
      var u := ReadStatuses(rec, [Got(msgs[0]), Got(msgs[1]), Got(msgs[2])] + rest, 3);
      && u == Update(rec.(status := StatusRunning, ipAddress := if last.Some? then last else rec.ipAddress), Ok(()))
      && IsProvisioned(u.saved)
  {
    var msgs := Agent.StartupMessages(exit, s).0;
    var tail := [Got(msgs[2])] + rest;
    var rec1 := rec.(status := JStr("initializing"));
    assert [Got(msgs[0]), Got(msgs[1]), Got(msgs[2])] + rest == [Got(msgs[0])] + ([Got(msgs[1])] + tail);
    ReadSkipsProgress(rec, msgs[0], [Got(msgs[1])] + tail, 3);
    ReadSkipsProgress(rec1, msgs[1], tail, 2);
    ReadHeartbeat(rec1.(status := msgs[1].fields["status"]), s, rest);
  }

  /** A guest whose agent finds no cloud-init sends one message and stops:
      the boot raises `JSONDecodeError` on the next read, and the record
      keeps the status "initializing". */
  lemma SilentGuestFailsBoot(rec: Record, s: Agent.Snapshot)
    ensures var msgs := Agent.StartupMessages(Agent.NotFound, s).0;
      ReadStatuses(rec, [Got(msgs[0])], 3) ==
        Update(rec.(status := JStr("initializing")), Err(JSONDecodeError))
  {
    var msgs := Agent.StartupMessages(Agent.NotFound, s).0;
    assert [Got(msgs[0])][1..] == [];
  }

  /** A guest that dies after its first message closes the control device:
      the boot raises `SerialException` on the next read, and the record
      keeps the status "initializing". */
  lemma DyingGuestFailsBoot(rec: Record, exit: Agent.CloudInitExit, s: Agent.Snapshot)
    ensures var msgs := Agent.StartupMessages(exit, s).0;
      ReadStatuses(rec, [Got(msgs[0]), ReadFails], 3) ==
        Update(rec.(status := JStr("initializing")), Err(SerialException))
  {
    var msgs := Agent.StartupMessages(exit, s).0;
    ReadSkipsProgress(rec, msgs[0], [ReadFails], 3);
  }

  /** `boot_normally` picks `sorted([...x.startswith(p)])[0]` for the kernel
      (`vmlinuz`) and the initrd (`initrd`) from the boot volume's listing;
      either list being empty raises `IndexError`. */
  function LegacyBootFiles(listing: seq<string>): (r: Result<(string, string), PyError>)
    ensures r.Ok? <==>
      (exists x | x in listing :: StartsWith(x, "vmlinuz")) && (exists x | x in listing :: StartsWith(x, "initrd"))
    ensures r.Err? ==> r.error == IndexError
    ensures r.Ok? ==>
      && r.value.0 in listing && StartsWith(r.value.0, "vmlinuz")
      && (forall x | x in listing && StartsWith(x, "vmlinuz") :: LexLe(r.value.0, x))
      && r.value.1 in listing && StartsWith(r.value.1, "initrd")
      && (forall x | x in listing && StartsWith(x, "initrd") :: LexLe(r.value.1, x))
  {
    var kernels := FilterStartingWith(listing, "vmlinuz");
    var initrds := FilterStartingWith(listing, "initrd");
    if |kernels| == 0 then
      assert forall x | x in listing :: !StartsWith(x, "vmlinuz");
      Err(IndexError)
    else if |initrds| == 0 then
      assert forall x | x in listing :: !StartsWith(x, "initrd");
      Err(IndexError)
    else
      SortedEndsAreExtremes(kernels);
      SortedEndsAreExtremes(initrds);
      Ok((Sort(kernels)[0], Sort(initrds)[0]))
  }

  /** What the host offers one start: the boot volume's listing, the names
      of the temporary copies of its kernel and initrd, whether the control
      socket opens, and what each read of the control device gives. */
  datatype LegacyEnv = LegacyEnv(
    bootListing: seq<string>,
    tempKernel: string,
    tempInitrd: string,
    controlOpens: bool,
    guestLines: seq<Line>)

  /** How `boot_normally` ends for a VM whose record is `rec`: the boot files
      must be found, the control socket must open, and then three messages
      are read. */
  function BootOutcome(rec: Record, env: LegacyEnv): (r: Update)
    ensures r.saved == rec.(status := r.saved.status, ipAddress := r.saved.ipAddress)
    ensures LegacyBootFiles(env.bootListing).Err? ==> r == Update(rec, Err(IndexError))
    ensures !env.controlOpens ==> r.result.Err? && r.saved == rec
    ensures r.result.Ok? ==> env.controlOpens && |env.guestLines| >= 3 && env.guestLines[2].Got?
  {
    if LegacyBootFiles(env.bootListing).Err? then Update(rec, Err(IndexError))
    else if !env.controlOpens then Update(rec, Err(SerialException))
    else ReadStatuses(rec, env.guestLines, 3)
  }

  /** A boot that reads the agent's startup sequence completes and leaves
      the VM provisioned. */
  lemma StartupSequenceProvisions(rec: Record, env: LegacyEnv, exit: Agent.CloudInitExit, s: Agent.Snapshot,
                                  rest: seq<Line>)
    requires exit != Agent.NotFound && Agent.Heartbeat(s).Ok?
    requires LegacyBootFiles(env.bootListing).Ok? && env.controlOpens
    requires var msgs := Agent.StartupMessages(exit, s).0;
      env.guestLines == [Got(msgs[0]), Got(msgs[1]), Got(msgs[2])] + rest
    ensures BootOutcome(rec, env).result == Ok(())
    ensures IsProvisioned(BootOutcome(rec, env).saved)
  {
    StartupSequenceBoots(rec, exit, s, rest);
  }

  /** An ended read as the outcome of a start: a read that raised raises. */
  function Raising(res: Result<(), PyError>): (r: Outcome<()>)
    ensures r.Normal? <==> res.Ok?
    ensures res.Err? ==> r == Raise(Py(res.error))
  {
    match res
    case Ok(_) => Normal(())
    case Err(e) => Raise(Py(e))
  }

  /** The host as the older revision sees it: `vms` holds each VM's
      `vm.json`, `pidfiles` the runner's pid files, `dirs` the VM
      directories that exist and `launches` the runner processes started.
      `alive` is the set of pids for which `kill(pid, 0)` succeeds and
      `profiles` the registry. */
  class LegacyHost {
    const basePath: string
    const keyPath: string
    const files: VmFiles
    const profiles: map<string, LegacyProfile>
    const alive: set<int>
    var vms: map<string, Record>
    var pidfiles: map<string, PidFile>
    var dirs: set<string>
    var launches: seq<Controller.Launch>

    constructor(basePath: string, keyPath: string, files: VmFiles, profiles: map<string, LegacyProfile>,
                alive: set<int>, vms: map<string, Record>, pidfiles: map<string, PidFile>, dirs: set<string>)
      ensures this.basePath == basePath && this.keyPath == keyPath && this.files == files
      ensures this.profiles == profiles && this.alive == alive
      ensures this.vms == vms && this.pidfiles == pidfiles && this.dirs == dirs && launches == []
    {
      this.basePath := basePath;
      this.keyPath := keyPath;
      this.files := files;
      this.profiles := profiles;
      this.alive := alive;
      this.vms := vms;
      this.pidfiles := pidfiles;
      this.dirs := dirs;
      launches := [];
    }

    /** The path `get_vm_directory` returns. */
    function VmDirectory(name: string): string {
      Join(basePath, name)
    }

    /** `get_vm_directory`: the directory is created if it is missing. */
    method GetVmDirectory(name: string) returns (path: string)
      modifies this`dirs
      ensures dirs == old(dirs) + {name} && path == VmDirectory(name)
    {
      dirs := dirs + {name};
      path := VmDirectory(name);
    }

    /** `is_running` for `name`. */
    function Running(name: string): Result<bool, PyError>
      reads this`pidfiles
    {
      IsRunning(if name in pidfiles then Some(pidfiles[name]) else None, alive)
    }

    /** Constructing `VMManager`: `vm.json` must exist, and its profile must
      be registered. */
    function Manager(name: string): (r: Result<LegacyProfile, Raised>)
      reads this`vms
      ensures r.Ok? <==> name in vms && vms[name].profile in profiles
      ensures r.Ok? ==> r.value == profiles[vms[name].profile]
      ensures name !in vms ==> r == Err(Py(FileNotFoundError))
      ensures name in vms && vms[name].profile !in profiles ==> r == Err(Py(KeyError))
    {
      if name !in vms then Err(Py(FileNotFoundError))
      else if vms[name].profile !in profiles then Err(Py(KeyError))
      else Ok(profiles[vms[name].profile])
    }

    /** The runner started by `boot_normally`, on the temporary copies of the
      boot volume's kernel and initrd. */
    function VolumeLaunch(name: string, env: LegacyEnv, rec: Record): Controller.Launch {
      Controller.Launch(VmDirectory(name), RunnerArgv(LegacyRunner, LegacyCmdLine, env.tempKernel, env.tempInitrd, files, rec))
    }

    /** `boot_vm`: start `vmcli` in the VM's directory, open its control
      socket and apply three messages from it, each saved as it comes. */
    method BootVm(name: string, kernel: string, initrd: string, env: LegacyEnv) returns (r: Result<(), PyError>)
      requires name in vms
      modifies this`vms, this`launches
      ensures launches == old(launches) +
        [Controller.Launch(VmDirectory(name), RunnerArgv(LegacyRunner, LegacyCmdLine, kernel, initrd, files, old(vms[name])))]
      ensures !env.controlOpens ==> r == Err(SerialException) && vms == old(vms)
      ensures env.controlOpens ==>
        var u := ReadStatuses(old(vms[name]), env.guestLines, 3);
        r == u.result && vms == old(vms)[name := u.saved]
    {
      var launch := Controller.Launch(VmDirectory(name), RunnerArgv(LegacyRunner, LegacyCmdLine, kernel, initrd, files, vms[name]));
      launches := launches + [launch];
      if !env.controlOpens {
        return Err(SerialException);
      }
      var lines := env.guestLines;
      for x := 0 to 3
        invariant name in vms && vms == old(vms)[name := vms[name]]
        invariant launches == old(launches) + [launch]
        invariant ReadStatuses(vms[name], lines, 3 - x) == ReadStatuses(old(vms[name]), env.guestLines, 3)
      {
        if lines == [] || lines[0].Rejected? {
          return Err(JSONDecodeError);
        }
        if lines[0].ReadFails? {
          return Err(SerialException);
        }
        var applied := ApplyLegacy(vms[name], lines[0].msg);
        if applied.Err? {
          return Err(applied.error);
        }
        vms := vms[name := applied.value];
        lines := lines[1..];
      }
      return Ok(());
    }

    /** `provision`: the profile classes of this revision have no
      `file_locations`, so provisioning raises `AttributeError` before it
      copies a disk, writes an ISO or starts the runner. */
    method Provision(name: string, profile: LegacyProfile) returns (r: PyError)
      ensures r == AttributeError
    {
      r := AttributeError;
    }

    /** `boot_normally`: find the kernel and initrd on the boot volume and
      boot from temporary copies of them. */
    method BootNormally(name: string, env: LegacyEnv) returns (r: Result<(), PyError>)
      requires name in vms
      modifies this`vms, this`launches
      ensures LegacyBootFiles(env.bootListing).Err? ==> r == Err(IndexError) && unchanged(this)
      ensures LegacyBootFiles(env.bootListing).Ok? ==>
        && launches == old(launches) + [VolumeLaunch(name, env, old(vms[name]))]
        && var u := BootOutcome(old(vms[name]), env);
           r == u.result && vms == old(vms)[name := u.saved]
    {
      var boot := LegacyBootFiles(env.bootListing);
      if boot.Err? {
        return Err(boot.error);
      }
      r := BootVm(name, env.tempKernel, env.tempInitrd, env);
    }

    /** `VMManager.start`: a running VM is refused; an "uninitialized" one
      is provisioned, which raises; a "running" one is booted from its boot
      volume; any other status does nothing. */
    method VmStart(name: string, profile: LegacyProfile, env: LegacyEnv) returns (r: Outcome<()>)
      requires name in vms
      modifies this`vms, this`launches
      ensures if Running(name).Err? then r == Raise(Py(ValueError)) && unchanged(this)
        else if Running(name).value then r == Raise(VMRunning) && unchanged(this)
        else if old(vms[name]).status == Uninitialized then r == Raise(Py(AttributeError)) && unchanged(this)
        else if old(vms[name]).status == StatusRunning then
          if LegacyBootFiles(env.bootListing).Err? then r == Raise(Py(IndexError)) && unchanged(this)
          else
            var u := BootOutcome(old(vms[name]), env);
            && r == Raising(u.result) && vms == old(vms)[name := u.saved]
            && launches == old(launches) + [VolumeLaunch(name, env, old(vms[name]))]
        else r == Normal(()) && unchanged(this)
    {
      var running := Running(name);
      if running.Err? {
        return Raise(Py(running.error));
      }
      if running.value {
        return Raise(VMRunning);
      }
      if vms[name].status == Uninitialized {
        var e := Provision(name, profile);
        return Raise(Py(e));
      } else if vms[name].status == StatusRunning {
        var res := BootNormally(name, env);
        return Raising(res);
      }
      return Normal(());
    }

    /** `Controller.start` as written: it builds the `VMManager`, which
      reads `vm.json`, before asking whether the VM exists, so a new name
      raises `FileNotFoundError` (after its directory is created) and the
      branch that writes a fresh record is never reached. A known VM is
      started again only when its record says "running". */
    method Start(profileName: string, name: string, cpus: int, memory: int, diskSize: int,
                 b0: Byte, b1: Byte, b2: Byte, env: LegacyEnv) returns (r: Outcome<()>)
      modifies this`dirs, this`vms, this`launches
      ensures dirs == old(dirs) + {name}
      ensures name !in old(vms) ==> r == Raise(Py(FileNotFoundError)) && vms == old(vms) && launches == old(launches)
      ensures name in old(vms) && old(vms[name]).profile !in profiles ==>
        r == Raise(Py(KeyError)) && vms == old(vms) && launches == old(launches)
      ensures Manager(name).Ok? && !IsProvisioned(old(vms[name])) ==>
        r == Raise(DuplicateVM) && vms == old(vms) && launches == old(launches)
      ensures Manager(name).Ok? && IsProvisioned(old(vms[name])) && Running(name).Err? ==>
        r == Raise(Py(ValueError)) && vms == old(vms) && launches == old(launches)
      ensures Manager(name).Ok? && IsProvisioned(old(vms[name])) && Running(name) == Ok(true) ==>
        r == Raise(VMRunning) && vms == old(vms) && launches == old(launches)
      ensures Manager(name).Ok? && IsProvisioned(old(vms[name])) && Running(name) == Ok(false) ==>
        if LegacyBootFiles(env.bootListing).Err? then
          r == Raise(Py(IndexError)) && vms == old(vms) && launches == old(launches)
        else
          var u := BootOutcome(old(vms[name]), env);
          && r == Raising(u.result) && vms == old(vms)[name := u.saved]
          && launches == old(launches) + [VolumeLaunch(name, env, old(vms[name]))]
    {
      var _ := GetVmDirectory(name);
      var manager := Manager(name);
      if manager.Err? {
        return Raise(manager.error);
      }
      // a name whose `vm.json` was read is taken to be in `get_valid_vms()` (dot-named directories are not modelled)
      if IsProvisioned(vms[name]) {
        r := VmStart(name, manager.value, env);
        return;
      }
      return Raise(DuplicateVM);
    }

    /** `Controller.start` with the manager built after the record is
      written, as the newer revision does: a new name gets its fresh record
      (status "uninitialized", no address, a `52:54:00` MAC address) and is
      started, which in this revision ends in `provision`'s
      `AttributeError`. */
    method StartCorrected(profileName: string, name: string, cpus: int, memory: int, diskSize: int,
                          b0: Byte, b1: Byte, b2: Byte, env: LegacyEnv) returns (r: Outcome<()>)
      modifies this`dirs, this`vms, this`launches
      ensures dirs == old(dirs) + {name} && name in vms
      ensures name !in old(vms) ==>
        && vms == old(vms)[name := NewRecord(profileName, cpus, memory, diskSize, b0, b1, b2)]
        && launches == old(launches)
      ensures name !in old(vms) && profileName !in profiles ==> r == Raise(Py(KeyError))
      ensures name !in old(vms) && profileName in profiles && Running(name).Err? ==>
        r == Raise(Py(ValueError))
      ensures name !in old(vms) && profileName in profiles && Running(name) == Ok(true) ==>
        r == Raise(VMRunning)
      ensures name !in old(vms) && profileName in profiles && Running(name) == Ok(false) ==>
        r == Raise(Py(AttributeError))
      ensures name in old(vms) && old(vms[name]).profile !in profiles ==>
        r == Raise(Py(KeyError)) && vms == old(vms) && launches == old(launches)
      ensures name in old(vms) && Manager(name).Ok? && !IsProvisioned(old(vms[name])) ==>
        r == Raise(DuplicateVM) && vms == old(vms) && launches == old(launches)
      ensures name in old(vms) && Manager(name).Ok? && IsProvisioned(old(vms[name])) && Running(name).Err? ==>
        r == Raise(Py(ValueError)) && vms == old(vms) && launches == old(launches)
      ensures name in old(vms) && Manager(name).Ok? && IsProvisioned(old(vms[name])) && Running(name) == Ok(true) ==>
        r == Raise(VMRunning) && vms == old(vms) && launches == old(launches)
      ensures name in old(vms) && Manager(name).Ok? && IsProvisioned(old(vms[name])) && Running(name) == Ok(false) ==>
        if LegacyBootFiles(env.bootListing).Err? then
          r == Raise(Py(IndexError)) && vms == old(vms) && launches == old(launches)
        else
          var u := BootOutcome(old(vms[name]), env);
          && r == Raising(u.result) && vms == old(vms)[name := u.saved]
          && launches == old(launches) + [VolumeLaunch(name, env, old(vms[name]))]
    {
      var _ := GetVmDirectory(name);
      if name in vms {
        var manager := Manager(name);
        if manager.Err? {
          return Raise(manager.error);
        }
        if IsProvisioned(vms[name]) {
          r := VmStart(name, manager.value, env);
          return;
        }
        return Raise(DuplicateVM);
      }
      vms := vms[name := NewRecord(profileName, cpus, memory, diskSize, b0, b1, b2)];
      var manager := Manager(name);
      if manager.Err? {
        return Raise(manager.error);
      }
      r := VmStart(name, manager.value, env);
    }

    /** `Controller.delete`: only a known VM that is not running is
      deleted, and deleting removes its whole directory. */
    method Delete(name: string) returns (r: Outcome<()>)
      modifies this`dirs, this`vms, this`pidfiles
      ensures name !in old(vms) ==> r == Raise(VMDoesntExist) && unchanged(this)
      ensures name in old(vms) && old(Manager(name)).Err? ==> r == Raise(old(Manager(name)).error)
      ensures name in old(vms) && old(Manager(name)).Ok? && old(Running(name)).Err? ==> r == Raise(Py(ValueError))
      ensures name in old(vms) && old(Manager(name)).Ok? && old(Running(name)) == Ok(true) ==> r == Raise(VMRunning)
      ensures r.Raise? ==> vms == old(vms) && pidfiles == old(pidfiles)
      ensures name in old(vms) && r.Raise? ==> dirs == old(dirs) + {name}
      ensures r.Normal? <==> name in old(vms) && old(Manager(name)).Ok? && old(Running(name)) == Ok(false)
      ensures r.Normal? ==>
        && vms == old(vms) - {name} && pidfiles == old(pidfiles) - {name} && dirs == old(dirs) - {name}
    {
      if name !in vms {
        return Raise(VMDoesntExist);
      }
      var _ := GetVmDirectory(name);
      var manager := Manager(name);
      if manager.Err? {
        return Raise(manager.error);
      }
      var running := Running(name);
      if running.Err? {
        return Raise(Py(running.error));
      }
      if running.value {
        return Raise(VMRunning);
      }
      vms := vms - {name};
      pidfiles := pidfiles - {name};
      dirs := dirs - {name};
      return Normal(());
    }

    /** `Controller.shell`: a known, running VM with an address is reached
      with `ssh`, with no arguments after the address. */
    method Shell(name: string) returns (r: Outcome<seq<string>>)
      modifies this`dirs
      ensures name !in vms ==> r == Raise(VMDoesntExist) && dirs == old(dirs)
      ensures name in vms ==> dirs == old(dirs) + {name}
      ensures name in vms && Manager(name).Err? ==> r == Raise(Manager(name).error)
      ensures name in vms && Manager(name).Ok? && Running(name).Err? ==> r == Raise(Py(ValueError))
      ensures name in vms && Manager(name).Ok? && Running(name) == Ok(false) ==> r == Raise(VMNotRunning)
      ensures name in vms && Manager(name).Ok? && Running(name) == Ok(true) && IpAddress(vms[name]).Err? ==>
        r == Raise(VMHasNoAssignedAddress)
      ensures r.Normal? <==>
        name in vms && Manager(name).Ok? && Running(name) == Ok(true) && IpAddress(vms[name]).Ok?
      ensures r.Normal? ==> r.value == Controller.SshArgv(keyPath, IpAddress(vms[name]).value, [])
    {
      if name !in vms {
        return Raise(VMDoesntExist);
      }
      var _ := GetVmDirectory(name);
      var manager := Manager(name);
      if manager.Err? {
        return Raise(manager.error);
      }
      var running := Running(name);
      if running.Err? {
        return Raise(Py(running.error));
      }
      if !running.value {
        return Raise(VMNotRunning);
      }
      var ip := IpAddress(vms[name]);
      if ip.Err? {
        return Raise(ip.error);
      }
      return Normal(Controller.SshArgv(keyPath, ip.value, []));
    }
  }
}
