/** The parts of the lifecycle controller that both revisions share: the VM
    record kept in each VM's `vm.json`, the errors the controller raises, the
    liveness probe, the MAC-address format, the root-disk padding arithmetic,
    the runner's argument list, and the scan of a heartbeat's addresses. */
module Vm {
  import opened Wrappers
  import opened Strings
  import opened Values

  /** The contents of `vm.json`. `status` holds whatever the guest last reported. */
  datatype Record = Record(
    memory: int,
    cpus: int,
    diskSize: int,
    profile: string,
    ipAddress: Option<string>,
    macAddress: string,
    status: Json)

  const Uninitialized: Json := JStr("uninitialized")
  const StatusRunning: Json := JStr("running")

  /** What an operation raised instead of returning. `VMStarted` is the success
      signal of the newer revision; `Py` wraps an exception the code lets escape. */
  datatype Raised =
    | DuplicateVM
    | VMDoesntExist
    | VMHasNoAssignedAddress
    | VMRunning
    | VMNotRunning
    | InternalError(returnCode: int)
    | VMStarted
    | Py(error: PyError)

  /** How an operation ended: it returned `value`, or raised. */
  datatype Outcome<T> = Normal(value: T) | Raise(raised: Raised)

  /** The exit status each raised value declares: `VMStarted` has the class
      attribute `code = 0`, every `BaseError` has `code = 1`, and an uncaught
      Python exception also ends the process with status 1. */
  function ExitCode(r: Raised): (code: int)
    ensures code == 0 <==> r == VMStarted
    ensures code == 0 || code == 1
  {
    if r == VMStarted then 0 else 1
  }

  /** `is_provisioned`: the record says the VM reached "running" once. */
  predicate IsProvisioned(rec: Record) {
    rec.status == StatusRunning
  }

  /** `get_ip_address`: a missing or empty address raises `VMHasNoAssignedAddress`. */
  function IpAddress(rec: Record): (r: Result<string, Raised>)
    ensures r.Ok? <==> rec.ipAddress.Some? && rec.ipAddress.value != ""
    ensures r.Ok? ==> rec.ipAddress == Some(r.value)
    ensures r.Err? ==> r.error == VMHasNoAssignedAddress
  {
    match rec.ipAddress
    case Some(a) => if a != "" then Ok(a) else Err(VMHasNoAssignedAddress)
    case None => Err(VMHasNoAssignedAddress)
  }

  /** The contents of a `pidfile`: `pid` is `None` when `int()` rejects the text. */
  datatype PidFile = PidText(pid: Option<int>)

  /** `is_running`: no pid file means not running; `kill(pid, 0)` succeeding
      (the pid is in `alive`) means running, and failing with `OSError` means
      not running; text that `int()` rejects raises `ValueError`. */
  function IsRunning(pidfile: Option<PidFile>, alive: set<int>): (r: Result<bool, PyError>)
    ensures pidfile.None? ==> r == Ok(false)
    ensures r == Ok(true) <==> pidfile.Some? && pidfile.value.pid.Some? && pidfile.value.pid.value in alive
    ensures r.Err? <==> pidfile.Some? && pidfile.value.pid.None?
    ensures r.Err? ==> r.error == ValueError
  {
    match pidfile
    case None => Ok(false)
    case Some(PidText(None)) => Err(ValueError)
    case Some(PidText(Some(pid))) => Ok(pid in alive)
  }

  /** A value of `random.randint(0, 255)`. */
  type Byte = x: int | 0 <= x < 256

  /** A lower-case hexadecimal digit. */
  function HexDigit(d: int): (c: char)
    requires 0 <= d < 16
    ensures '0' <= c <= '9' || 'a' <= c <= 'f'
  {
    if d < 10 then ('0' as int + d) as char else ('a' as int + d - 10) as char
  }

  /** The value of a hexadecimal digit. */
  function HexValue(c: char): int {
    if '0' <= c <= '9' then c as int - '0' as int
    else if 'a' <= c <= 'f' then c as int - 'a' as int + 10
    else 0
  }

  /** `"%02x" % b`: two lower-case hexadecimal digits. */
  function Hex2(b: Byte): (r: string)
    ensures |r| == 2
  {
    [HexDigit(b / 16), HexDigit(b % 16)]
  }

  /** The MAC address a new VM gets: `52:54:00:` and three random bytes. */
  function MacAddress(b0: Byte, b1: Byte, b2: Byte): (r: string)
    ensures |r| == 17 && StartsWith(r, "52:54:00:")
    ensures r[11] == ':' && r[14] == ':'
    ensures forall i | 9 <= i < 17 && i != 11 && i != 14 :: '0' <= r[i] <= '9' || 'a' <= r[i] <= 'f'
  {
    "52:54:00:" + Hex2(b0) + ":" + Hex2(b1) + ":" + Hex2(b2)
  }

  /** The three random bytes read back from a MAC address. */
  function MacBytes(mac: string): (int, int, int)
    requires |mac| == 17
  {
    (HexValue(mac[9]) * 16 + HexValue(mac[10]),
     HexValue(mac[12]) * 16 + HexValue(mac[13]),
     HexValue(mac[15]) * 16 + HexValue(mac[16]))
  }

  lemma Hex2RoundTrip(b: Byte)
    ensures HexValue(Hex2(b)[0]) * 16 + HexValue(Hex2(b)[1]) == b
  {
  }

  /** The MAC address determines the three bytes it was formatted from. */
  lemma MacRoundTrip(b0: Byte, b1: Byte, b2: Byte)
    ensures MacBytes(MacAddress(b0, b1, b2)) == (b0, b1, b2)
  {
    var m := MacAddress(b0, b1, b2);
    Hex2RoundTrip(b0);
    Hex2RoundTrip(b1);
    Hex2RoundTrip(b2);
    assert m[9..11] == Hex2(b0) && m[12..14] == Hex2(b1) && m[15..17] == Hex2(b2);
  }

  /** The record `Controller.start` writes for a new VM. */
  function NewRecord(profile: string, cpus: int, memory: int, diskSize: int,
                     b0: Byte, b1: Byte, b2: Byte): (rec: Record)
    ensures rec.status == Uninitialized && rec.ipAddress == None
    ensures rec.macAddress == MacAddress(b0, b1, b2)
    ensures rec.profile == profile && rec.cpus == cpus && rec.memory == memory && rec.diskSize == diskSize
  {
    Record(memory, cpus, diskSize, profile, None, MacAddress(b0, b1, b2), Uninitialized)
  }

  /** One MiB, `1024 * 1024` bytes. */
  const MB: int := 1048576

  /** `range(256)` blocks of one MiB make the boot image. */
  const BootImageBlocks: nat := 256

  /** `int(((MB * disk_size) - size) / MB)`: Python's `int` truncates the
      quotient toward zero, so a short disk gives a non-positive count. */
  function PaddingChunks(diskSizeMb: int, size: int): (c: int)
    ensures MB * diskSizeMb - size >= 0 ==> c * MB <= MB * diskSizeMb - size < c * MB + MB
    ensures MB * diskSizeMb - size < 0 ==> c <= 0 && c * MB - MB < MB * diskSizeMb - size <= c * MB
  {
    var x := MB * diskSizeMb - size;
    if x >= 0 then x / MB else -((-x) / MB)
  }

  /** The root disk's size after `range(chunks)` blocks of one MiB are appended
      (a non-positive count appends nothing). */
  function PaddedSize(size: int, diskSizeMb: int): int {
    var c := PaddingChunks(diskSizeMb, size);
    if c > 0 then size + c * MB else size
  }

  /** The padding never shrinks the disk, adds whole MiB blocks, adds nothing
      when the copied image already reaches the requested size, and otherwise
      ends within one MiB below the requested size. */
  lemma PaddingBounds(size: int, diskSizeMb: int)
    ensures PaddedSize(size, diskSizeMb) >= size
    ensures (PaddedSize(size, diskSizeMb) - size) % MB == 0
    ensures size >= MB * diskSizeMb ==> PaddedSize(size, diskSizeMb) == size
    ensures size <= MB * diskSizeMb ==>
      MB * diskSizeMb - MB < PaddedSize(size, diskSizeMb) <= MB * diskSizeMb
  {
    var c := PaddingChunks(diskSizeMb, size);
    if c > 0 {
      assert (c * MB) % MB == 0;
    }
  }

  /** The per-VM file names (`DISK_FILENAME`, `BOOT_DISK_FILENAME`,
      `CLOUDINIT_ISO_NAME`), defined in a constants module outside this model. */
  datatype VmFiles = VmFiles(disk: string, bootDisk: string, cloudinitIso: string)

  /** The kernel command line of the newer revision. */
  const CmdLine: string := "console=hvc0 irqfixup quiet root=/dev/vda"

  /** A runner option: a flag such as `--disk=` and its value. */
  datatype RunnerOpt = Opt(flag: string, value: string)

  /** A flag as the runner's option parser knows it: it ends with the only `=` in it. */
  predicate IsFlag(f: string) {
    |f| > 0 && f[|f| - 1] == '=' && '=' !in f[..|f| - 1]
  }

  /** The options after the runner's path, in the order the source lists them. */
  function RunnerOptions(cmdline: string, kernel: string, initrd: string,
                         files: VmFiles, rec: Record): seq<RunnerOpt>
  {
    [Opt("--pidfile=", "./pidfile"),
     Opt("--kernel=", kernel),
     Opt("--cmdline=", cmdline),
     Opt("--initrd=", initrd),
     Opt("--cdrom=", "./" + files.cloudinitIso),
     Opt("--disk=", files.disk),
     Opt("--disk=", files.bootDisk),
     Opt("--network=", rec.macAddress + "@nat"),
     Opt("--cpu-count=", IntToString(rec.cpus)),
     Opt("--memory-size=", IntToString(rec.memory)),
     Opt("--console-symlink=", "console"),
     Opt("--control-symlink=", "control")]
  }

  /** How options are written on the command line: flag and value in one argument. */
  function RenderOptions(opts: seq<RunnerOpt>): (r: seq<string>)
    ensures |r| == |opts|
    ensures forall i | 0 <= i < |opts| :: r[i] == opts[i].flag + opts[i].value
  {
    if opts == [] then [] else [opts[0].flag + opts[0].value] + RenderOptions(opts[1..])
  }

  /** The argument list handed to the runner: its path, then the options. */
  function RunnerArgv(runner: string, cmdline: string, kernel: string, initrd: string,
                      files: VmFiles, rec: Record): seq<string>
  {
    [runner] + RenderOptions(RunnerOptions(cmdline, kernel, initrd, files, rec))
  }

  /** The three options whose value is fixed, as the source spells them. */
  lemma FixedOptionsSpelled()
    ensures "--pidfile=" + "./pidfile" == "--pidfile=./pidfile"
    ensures "--console-symlink=" + "console" == "--console-symlink=console"
    ensures "--control-symlink=" + "control" == "--control-symlink=control"
  {
  }

  /** The argument list written out: exactly the thirteen strings of the source, in order. */
  lemma RunnerArgvLiteral(runner: string, cmdline: string, kernel: string, initrd: string,
                          files: VmFiles, rec: Record)
    ensures var argv := RunnerArgv(runner, cmdline, kernel, initrd, files, rec);
      && |argv| == 13
      && argv[0] == runner
      && argv[1] == "--pidfile=./pidfile"
      && argv[2] == "--kernel=" + kernel
      && argv[3] == "--cmdline=" + cmdline
      && argv[4] == "--initrd=" + initrd
      && argv[5] == "--cdrom=./" + files.cloudinitIso
      && argv[6] == "--disk=" + files.disk
      && argv[7] == "--disk=" + files.bootDisk
      && argv[8] == "--network=" + rec.macAddress + "@nat"
      && argv[9] == "--cpu-count=" + IntToString(rec.cpus)
      && argv[10] == "--memory-size=" + IntToString(rec.memory)
      && argv[11] == "--console-symlink=console"
      && argv[12] == "--control-symlink=control"
  {
    var argv := RunnerArgv(runner, cmdline, kernel, initrd, files, rec);
    var opts := RunnerOptions(cmdline, kernel, initrd, files, rec);
    assert forall i | 0 <= i < 12 :: argv[i + 1] == opts[i].flag + opts[i].value;
    FixedOptionsSpelled();
  }

  /** What an option parser reads from `args` for `flag`: the text after the
      flag of every argument that starts with it, in order. */
  function FlagValues(args: seq<string>, flag: string): seq<string> {
    if args == [] then []
    else (if StartsWith(args[0], flag) then [args[0][|flag|..]] else []) + FlagValues(args[1..], flag)
  }

  /** The values given for `flag` in a list of options. */
  function ValuesFor(opts: seq<RunnerOpt>, flag: string): seq<string> {
    if opts == [] then []
    else (if opts[0].flag == flag then [opts[0].value] else []) + ValuesFor(opts[1..], flag)
  }

  /** A flag no option carries has no values. */
  lemma {:induction false} ValuesForAbsent(opts: seq<RunnerOpt>, flag: string)
    requires forall j | 0 <= j < |opts| :: opts[j].flag != flag
    ensures ValuesFor(opts, flag) == []
  {
    if opts != [] {
      ValuesForAbsent(opts[1..], flag);
    }
  }

  /** A flag carried by the options at positions `i` and, when `k` is larger,
      also `k` and by no other has their values, in that order. */
  lemma {:induction false} ValuesForAt(opts: seq<RunnerOpt>, flag: string, i: nat, k: nat)
    requires i <= k < |opts|
    requires opts[i].flag == flag && opts[k].flag == flag
    requires forall j | 0 <= j < |opts| && j != i && j != k :: opts[j].flag != flag
    ensures ValuesFor(opts, flag) == if i == k then [opts[i].value] else [opts[i].value, opts[k].value]
  {
    if i > 0 {
      ValuesForAt(opts[1..], flag, i - 1, k - 1);
    } else if k > 0 {
      ValuesForAt(opts[1..], flag, k - 1, k - 1);
    } else {
      ValuesForAbsent(opts[1..], flag);
    }
  }

  /** In a flag, the position of `=` is exactly the last one. */
  lemma FlagEquals(f: string)
    requires IsFlag(f)
    ensures forall i | 0 <= i < |f| :: f[i] == '=' <==> i == |f| - 1
  {
    forall i | 0 <= i < |f| - 1
      ensures f[i] != '='
    {
      assert f[i] == f[..|f| - 1][i];
    }
  }

  /** An argument `g + v` starts with the flag `f` only when `f` is `g`. */
  lemma FlagMatch(f: string, g: string, v: string)
    requires IsFlag(f) && IsFlag(g)
    ensures StartsWith(g + v, f) <==> f == g
  {
    if f == g {
      assert (g + v)[..|g|] == g;
    }
    if StartsWith(g + v, f) {
      FlagEquals(f);
      FlagEquals(g);
      var m := if |f| < |g| then |f| else |g|;
      assert f[m - 1] == (g + v)[m - 1] == g[m - 1];
      assert |f| == |g|;
      assert f == (g + v)[..|f|] == g;
    }
  }

  /** Parsing rendered options reads back, for each flag, exactly the values it was given. */
  lemma {:induction false} ParseRendered(opts: seq<RunnerOpt>, flag: string)
    requires IsFlag(flag)
    requires forall i | 0 <= i < |opts| :: IsFlag(opts[i].flag)
    ensures FlagValues(RenderOptions(opts), flag) == ValuesFor(opts, flag)
  {
    if opts != [] {
      var o := opts[0];
      FlagMatch(flag, o.flag, o.value);
      assert RenderOptions(opts)[1..] == RenderOptions(opts[1..]);
      if o.flag == flag {
        assert (o.flag + o.value)[|flag|..] == o.value;
      }
      ParseRendered(opts[1..], flag);
    }
  }

  /** Every flag the controller passes is a well-formed flag. */
  lemma RunnerFlagsAreFlags(cmdline: string, kernel: string, initrd: string, files: VmFiles, rec: Record)
    ensures var opts := RunnerOptions(cmdline, kernel, initrd, files, rec);
      forall i | 0 <= i < |opts| :: IsFlag(opts[i].flag)
  {
    assert IsFlag("--pidfile=");
    assert IsFlag("--kernel=");
    assert IsFlag("--cmdline=");
    assert IsFlag("--initrd=");
    assert IsFlag("--cdrom=");
    assert IsFlag("--disk=");
    assert IsFlag("--network=");
    assert IsFlag("--cpu-count=");
    assert IsFlag("--memory-size=");
    assert IsFlag("--console-symlink=");
    assert IsFlag("--control-symlink=");
  }

  /** The options as the runner parses them back from the argument list. */
  lemma RunnerArgvReadsOptions(runner: string, cmdline: string, kernel: string, initrd: string,
                               files: VmFiles, rec: Record, flag: string)
    requires IsFlag(flag)
    ensures FlagValues(RunnerArgv(runner, cmdline, kernel, initrd, files, rec)[1..], flag)
         == ValuesFor(RunnerOptions(cmdline, kernel, initrd, files, rec), flag)
  {
    var opts := RunnerOptions(cmdline, kernel, initrd, files, rec);
    assert RunnerArgv(runner, cmdline, kernel, initrd, files, rec)[1..] == RenderOptions(opts);
    RunnerFlagsAreFlags(cmdline, kernel, initrd, files, rec);
    ParseRendered(opts, flag);
  }

  /** Every option but the two disks is the only one with its flag, so its
      flag has exactly its value. */
  lemma RunnerOptionValue(cmdline: string, kernel: string, initrd: string, files: VmFiles, rec: Record, i: nat)
    requires i < 12 && i != 5 && i != 6
    ensures var opts := RunnerOptions(cmdline, kernel, initrd, files, rec);
      ValuesFor(opts, opts[i].flag) == [opts[i].value]
  {
    var opts := RunnerOptions(cmdline, kernel, initrd, files, rec);
    ValuesForAt(opts, opts[i].flag, i, i);
  }

  /** The runner reads back, for every option but the two disks, exactly the
      value the controller gave it. */
  lemma RunnerArgvValue(runner: string, cmdline: string, kernel: string, initrd: string,
                        files: VmFiles, rec: Record, i: nat)
    requires i < 12 && i != 5 && i != 6
    ensures var opts := RunnerOptions(cmdline, kernel, initrd, files, rec);
      FlagValues(RunnerArgv(runner, cmdline, kernel, initrd, files, rec)[1..], opts[i].flag) == [opts[i].value]
  {
    var opts := RunnerOptions(cmdline, kernel, initrd, files, rec);
    RunnerFlagsAreFlags(cmdline, kernel, initrd, files, rec);
    RunnerArgvReadsOptions(runner, cmdline, kernel, initrd, files, rec, opts[i].flag);
    RunnerOptionValue(cmdline, kernel, initrd, files, rec, i);
  }

  /** What the runner boots: exactly one kernel and one initrd, the ones given. */
  lemma RunnerArgvBootFiles(runner: string, cmdline: string, kernel: string, initrd: string,
                            files: VmFiles, rec: Record)
    ensures var args := RunnerArgv(runner, cmdline, kernel, initrd, files, rec)[1..];
      && FlagValues(args, "--kernel=") == [kernel]
      && FlagValues(args, "--initrd=") == [initrd]
  {
    RunnerArgvValue(runner, cmdline, kernel, initrd, files, rec, 1);
    RunnerArgvValue(runner, cmdline, kernel, initrd, files, rec, 3);
  }

  /** The runner gets one kernel command line, and the cloud-init image as its cdrom on every boot. */
  lemma RunnerArgvCmdline(runner: string, cmdline: string, kernel: string, initrd: string,
                          files: VmFiles, rec: Record)
    ensures var args := RunnerArgv(runner, cmdline, kernel, initrd, files, rec)[1..];
      && FlagValues(args, "--cmdline=") == [cmdline]
      && FlagValues(args, "--cdrom=") == ["./" + files.cloudinitIso]
  {
    RunnerArgvValue(runner, cmdline, kernel, initrd, files, rec, 2);
    RunnerArgvValue(runner, cmdline, kernel, initrd, files, rec, 4);
  }

  /** The runner gets the root disk then the boot disk, and the record's MAC address on the NAT network. */
  lemma RunnerArgvDisks(runner: string, cmdline: string, kernel: string, initrd: string,
                        files: VmFiles, rec: Record)
    ensures var args := RunnerArgv(runner, cmdline, kernel, initrd, files, rec)[1..];
      && FlagValues(args, "--disk=") == [files.disk, files.bootDisk]
      && FlagValues(args, "--network=") == [rec.macAddress + "@nat"]
  {
    RunnerArgvReadsOptions(runner, cmdline, kernel, initrd, files, rec, "--disk=");
    ValuesForAt(RunnerOptions(cmdline, kernel, initrd, files, rec), "--disk=", 5, 6);
    RunnerArgvValue(runner, cmdline, kernel, initrd, files, rec, 7);
  }

  /** The runner gets the record's CPU count and memory size, written in decimal. */
  lemma RunnerArgvResources(runner: string, cmdline: string, kernel: string, initrd: string,
                            files: VmFiles, rec: Record)
    ensures var args := RunnerArgv(runner, cmdline, kernel, initrd, files, rec)[1..];
      && FlagValues(args, "--cpu-count=") == [IntToString(rec.cpus)]
      && FlagValues(args, "--memory-size=") == [IntToString(rec.memory)]
  {
    RunnerArgvValue(runner, cmdline, kernel, initrd, files, rec, 8);
    RunnerArgvValue(runner, cmdline, kernel, initrd, files, rec, 9);
  }

  /** The pidfile and the two sockets are named in the VM directory. */
  lemma RunnerArgvRunFiles(runner: string, cmdline: string, kernel: string, initrd: string,
                           files: VmFiles, rec: Record)
    ensures var args := RunnerArgv(runner, cmdline, kernel, initrd, files, rec)[1..];
      && FlagValues(args, "--pidfile=") == ["./pidfile"]
      && FlagValues(args, "--console-symlink=") == ["console"]
      && FlagValues(args, "--control-symlink=") == ["control"]
  {
    RunnerArgvValue(runner, cmdline, kernel, initrd, files, rec, 0);
    RunnerArgvValue(runner, cmdline, kernel, initrd, files, rec, 10);
    RunnerArgvValue(runner, cmdline, kernel, initrd, files, rec, 11);
  }

  /** The test a heartbeat address must pass to become the VM's address: the
      newer revision asks for the prefix `192.168`, the older one for the
      substring `192.168.68`. */
  datatype IpRule = PrefixRule(prefix: string) | SubstringRule(needle: string)

  const NewIpRule: IpRule := PrefixRule("192.168")
  const LegacyIpRule: IpRule := SubstringRule("192.168.68")

  predicate Accepts(rule: IpRule, address: string) {
    match rule
    case PrefixRule(p) => StartsWith(address, p)
    case SubstringRule(n) => Contains(address, n)
  }

  /** `for x in v`: a list yields its items and a string its one-character
      strings; numbers, booleans and null are not iterable. */
  function Items(v: Json): (r: Result<seq<Json>, PyError>)
    ensures r.Ok? <==> v.JArr? || v.JStr?
    ensures v.JArr? ==> r == Ok(v.items)
    ensures v.JStr? ==> |r.value| == |v.s| && forall i | 0 <= i < |v.s| :: r.value[i] == JStr([v.s[i]])
    ensures r.Err? ==> r.error == TypeError
  {
    match v
    case JArr(items) => Ok(items)
    case JStr(s) => Ok(seq(|s|, i requires 0 <= i < |s| => JStr([s[i]])))
    case _ => Err(TypeError)
  }

  /** `address, netmask = entry`: the entry must yield exactly two items, and
      the address is the first. A two-character string therefore yields its
      first character. A non-string address has no `startswith`
      (`AttributeError`) in the newer revision and cannot be searched with
      `in` (`TypeError`) in the older one. */
  function EntryAddress(rule: IpRule, entry: Json): (r: Result<string, PyError>)
    ensures entry.JArr? && |entry.items| == 2 && entry.items[0].JStr? ==> r == Ok(entry.items[0].s)
    ensures entry.JArr? && |entry.items| == 2 && !entry.items[0].JStr? ==>
      r == Err(if rule.PrefixRule? then AttributeError else TypeError)
    ensures entry.JArr? && |entry.items| != 2 ==> r == Err(ValueError)
    ensures entry.JStr? ==> r == if |entry.s| == 2 then Ok([entry.s[0]]) else Err(ValueError)
    ensures !(entry.JArr? || entry.JStr?) ==> r == Err(TypeError)
  {
    match Items(entry)
    case Err(e) => Err(e)
    case Ok(xs) =>
      if |xs| != 2 then Err(ValueError)
      else if xs[0].JStr? then Ok(xs[0].s)
      else Err(if rule.PrefixRule? then AttributeError else TypeError)
  }

  /** The `for address, netmask in ...` loop: each accepted address replaces
      the one held so far; the first malformed entry raises. */
  function ScanAddresses(rule: IpRule, entries: seq<Json>, ip: Option<string>): Result<Option<string>, PyError>
    decreases |entries|
  {
    if entries == [] then Ok(ip)
    else
      match EntryAddress(rule, entries[0])
      case Err(e) => Err(e)
      case Ok(a) => ScanAddresses(rule, entries[1..], if Accepts(rule, a) then Some(a) else ip)
  }

  /** Every entry of the list is one the loop can unpack and test. */
  predicate WellFormedEntries(rule: IpRule, entries: seq<Json>) {
    forall i | 0 <= i < |entries| :: EntryAddress(rule, entries[i]).Ok?
  }

  /** The reference definition read from the back: the last entry whose address passes the rule. */
  function LastAccepted(rule: IpRule, entries: seq<Json>): (r: Option<string>)
    ensures r.Some? <==> exists i | 0 <= i < |entries| :: AcceptedAt(rule, entries, i)
    ensures r.Some? ==> exists i | 0 <= i < |entries| ::
      (AcceptedAt(rule, entries, i) && EntryAddress(rule, entries[i]).value == r.value &&
       forall j | i < j < |entries| :: !AcceptedAt(rule, entries, j))
    decreases |entries|
  {
    if entries == [] then None
    else
      var n := |entries| - 1;
      var e := EntryAddress(rule, entries[n]);
      if e.Ok? && Accepts(rule, e.value) then
        assert AcceptedAt(rule, entries, n);
        Some(e.value)
      else
        var r := LastAccepted(rule, entries[..n]);
        assert forall i | 0 <= i < n :: AcceptedAt(rule, entries, i) == AcceptedAt(rule, entries[..n], i);
        r
  }

  /** The entry at `i` unpacks to an address the rule accepts. */
  predicate AcceptedAt(rule: IpRule, entries: seq<Json>, i: int)
    requires 0 <= i < |entries|
  {
    EntryAddress(rule, entries[i]).Ok? && Accepts(rule, EntryAddress(rule, entries[i]).value)
  }

  /** Scanning a concatenation scans the first part, then the second from its result. */
  lemma {:induction false} ScanAppend(rule: IpRule, a: seq<Json>, b: seq<Json>, ip: Option<string>)
    ensures ScanAddresses(rule, a + b, ip) ==
      match ScanAddresses(rule, a, ip)
      case Ok(ip') => ScanAddresses(rule, b, ip')
      case Err(e) => Err(e)
    decreases |a|
  {
    if a != [] {
      assert (a + b)[0] == a[0] && (a + b)[1..] == a[1..] + b;
      match EntryAddress(rule, a[0])
      case Err(e) =>
      case Ok(x) => ScanAppend(rule, a[1..], b, if Accepts(rule, x) then Some(x) else ip);
    } else {
      assert a + b == b;
    }
  }

  /** The scan succeeds exactly when every entry is well formed, and then
      yields the last accepted address, or the address held before when no
      entry is accepted. */
  lemma {:induction false} ScanMeaning(rule: IpRule, entries: seq<Json>, ip: Option<string>)
    ensures ScanAddresses(rule, entries, ip).Ok? <==> WellFormedEntries(rule, entries)
    ensures ScanAddresses(rule, entries, ip).Ok? ==>
      ScanAddresses(rule, entries, ip).value == if LastAccepted(rule, entries).Some? then LastAccepted(rule, entries) else ip
    decreases |entries|
  {
    if entries != [] {
      var n := |entries| - 1;
      var init := entries[..n];
      assert entries == init + [entries[n]];
      ScanAppend(rule, init, [entries[n]], ip);
      ScanMeaning(rule, init, ip);
      assert forall i | 0 <= i < n :: entries[i] == init[i];
    }
  }
}
