# macos-virt lifecycle model

macos-virt runs Linux virtual machines on macOS. It has a command-line
controller and a guest agent.

- The controller keeps one directory per VM under a base path. Each directory holds a `vm.json` record: memory, CPUs, disk size, profile, MAC and IP address, status.
- To start a VM, the controller launches a runner program with kernel, initrd, disks, network, CPU and memory options.
- The controller then reads JSON status lines from the VM's control console. The first "running" status completes the start, and the controller records the VM's IPv4 address.
- The guest agent inside the VM sends three messages at boot: "initializing", then the cloud-init result, then a heartbeat that carries the interface addresses. After that it serves "poweroff", "time_update" and "status" commands.
- Distribution profiles (three Ubuntu releases and Alpine 3.15) say:
  - which files to download;
  - how to find the kernel and initrd on the boot volume;
  - how to render the cloud-init user data.

The project models two revisions of the controller:

- **The newer revision** (`macos_virt/`) has the modules `Controller`, `Vm`, `Profiles`, `Registry`, `CloudInit` and `Agent`.
- **The older revision** (`src/`) has the modules `LegacyController`, `LegacyProfiles` and `LegacyRegistry`. It shares the record, argv and address-scan definitions of `Vm`.

Each part of the source becomes Dafny in the same form:

- **VM records and guest messages** are `datatype` values. A Python JSON document is `Values.Json`, and a raised Python exception is `Values.PyError`.
- **A controller process** is a class: `Controller.Host` and `LegacyController.LegacyHost`. Its fields are the things the process changes on disk and outside itself:
  - the `vm.json` records and the directories created;
  - the disk images (newer revision only) and the rendered user data (newer revision only);
  - the runner processes launched;
  - the bytes written to the control socket.
- **Python exceptions** are results. `Raise(VMStarted)` is the `VMStarted` exception, a `typer.Exit` subclass that declares `code = 0`, which ends a successful start.
- **Profile registries** are classes with a `map` and the map's key order, because Python dictionaries iterate in insertion order.
- **The guest agent** is a class that records every frame it writes and every system action it takes.
- **Serial-line reads, file-system listings, process liveness, the clock, random bytes and the YAML/JSON encoder** are parameters of the operations (`Controller.Env`, `LegacyController.LegacyEnv`, `Agent.Snapshot`, `dumps`).

Where the code and its description disagree, the model follows the code:

- **Disk padding.** The padding of the root disk truncates toward zero, so a base image larger than the requested size is left as it is. No "disk too small" error exists.
- **Saving `vm.json`.** A record is saved in place, not atomically. A malformed guest line raises the decode error rather than being skipped.
- **The cloud-init image** is passed on every boot, not only on the first.
- **`stop`** on an unknown name still creates the VM's directory before it fails.
- **The older revision's `provision`** reads `file_locations` from a profile class that has no such attribute. It therefore always raises `AttributeError` before any padding, which is arithmetic it shares with the newer revision.
- **The older revision's `check_required_files`** never returns `True`.

## Model

| member | source | states |
|---|---|---|
| Strings.IntRoundTrip | macos_virt/controller.py:210-211 | the decimal text given for `--cpu-count` and `--memory-size` reads back as the same integer |
| Strings.SortedEndsAreExtremes | macos_virt/profiles/ubuntu.py:31-36 | the first and last elements of the sorted listing are in the listing and are its least and greatest elements |
| Vm.ExitCode | macos_virt/controller.py:48-77 | the declared `code` attribute: 0 exactly for `VMStarted`, 1 for every other controller error |
| Vm.IpAddress | macos_virt/controller.py:97-101 | an address is returned exactly when the record holds a non-empty one; otherwise `VMHasNoAssignedAddress` |
| Vm.IsRunning | macos_virt/controller.py:271-282 | no pid file gives false; true exactly when the pid file parses and names a live process; an unparsable pid file raises `ValueError` |
| Vm.MacAddress | macos_virt/controller.py:333-337 | 17 characters, prefix `52:54:00:`, colons at 11 and 14, lower-case hex digits elsewhere |
| Vm.MacRoundTrip | macos_virt/controller.py:333-337 | the three random bytes are recovered from the formatted MAC address |
| Vm.NewRecord | macos_virt/controller.py:327-339 | a new record is uninitialized, has no address, and keeps the requested profile, CPUs, memory, disk size and generated MAC |
| Vm.PaddingChunks | macos_virt/controller.py:156-158 | the chunk count is the requested size minus the base size, divided by MB and truncated toward zero: bounded from below for a positive gap, from above for a negative one |
| Vm.PaddingBounds | macos_virt/controller.py:153-162 | the padded disk is never smaller than the base image, grows by whole MB, stays unchanged when the base is already at least the requested size, and otherwise ends within one MB below the requested size |
| Vm.RunnerArgvLiteral | macos_virt/controller.py:199-214 | the runner argv is exactly the 13 arguments in the source's order (pidfile, kernel, cmdline, initrd, cdrom, two disks, network, CPU count, memory size, console and control symlinks) |
| Vm.RunnerArgvBootFiles | macos_virt/controller.py:199-214 | reading the runner's arguments back gives exactly one kernel and one initrd: the ones passed |
| Vm.RunnerArgvCmdline | macos_virt/controller.py:199-214 | reading the arguments back gives exactly one kernel command line and the one cloud-init image |
| Vm.RunnerArgvDisks | macos_virt/controller.py:199-214 | reading the arguments back gives the root disk and then the boot disk, and one NAT network with the record's MAC |
| Vm.RunnerArgvResources | macos_virt/controller.py:199-214 | reading the arguments back gives the record's CPU count and memory size, once each |
| Vm.RunnerArgvRunFiles | macos_virt/controller.py:199-214 | reading the arguments back gives the pid file, console and control names, once each |
| Vm.Items | macos_virt/controller.py:265 | iterating a JSON value succeeds exactly for a list (its items) or a string (its one-character strings); a number, boolean or null raises `TypeError`, and so does an object (a departure listed under Left out) |
| Vm.EntryAddress | macos_virt/controller.py:265-266 | unpacking an address entry gives its first element; a wrong length raises `ValueError`, a number, boolean, null or object `TypeError` (the object case is listed under Left out) |
| Vm.LastAccepted | macos_virt/controller.py:264-267 | the reference meaning of the scan: some address exactly when an entry passes the rule, and then the last such entry's address |
| Vm.ScanMeaning | macos_virt/controller.py:264-267 | the address loop completes exactly when every entry unpacks into a string address, and then yields the last address the rule accepts, or the previous address if none passes |
| Agent.MainInterface | macos_virt/service/service.py:25-28 | `eth0` exactly when the guest has that interface, `enp0s1` otherwise |
| Agent.InetPairs | macos_virt/service/service.py:38-42 | the address list is no longer than the interface's address list |
| Agent.InetPairsAppend | macos_virt/service/service.py:38-42 | the list comprehension distributes over concatenation |
| Agent.InetPairsMeaning | macos_virt/service/service.py:38-42 | every reported pair is the `[address, netmask]` of an `AF_INET` address, and every `AF_INET` address is reported |
| Agent.Heartbeat | macos_virt/service/service.py:24-45 | the heartbeat exists exactly when the main interface exists (otherwise `KeyError`); it carries every reading key, status "running" and the main interface's IPv4 pairs |
| Agent.StartupMessages | macos_virt/service/service.py:48-56 | "initializing" always comes first; a missing cloud-init stops there with `FileNotFoundError`; otherwise the cloud-init result follows, then the heartbeat, or `KeyError` |
| Agent.Dispatch | macos_virt/service/service.py:63-73 | a non-object command does nothing; "poweroff" powers off, "time_update" sets the clock, "status" sends a heartbeat, any other type does nothing |
| Agent.CollectAppend | macos_virt/service/service.py:59-76 | the effects of the command loop over two runs of iterations are the effects of each run, concatenated |
| Agent.LoopCompositional | macos_virt/service/service.py:59-76 | the loop's outputs and actions over a concatenation are the concatenation of the two |
| Agent.Frames | macos_virt/service/service.py:19-21 | one frame per message, each the encoder's text followed by CR LF |
| Agent.Agent.SendJsonMessage | macos_virt/service/service.py:19-21 | appends exactly one frame for the message |
| Agent.Agent.SendStatus | macos_virt/service/service.py:24-45 | writes the heartbeat frame exactly when the heartbeat exists; otherwise writes nothing and raises `KeyError` |
| Agent.Agent.Startup | macos_virt/service/service.py:48-56 | writes the frames of the startup messages in order and returns their outcome |
| Agent.Agent.Handle | macos_virt/service/service.py:63-76 | writes the dispatched frames and performs the dispatched actions; a non-object command or missing `time` does nothing |
| Agent.Agent.CommandLoop | macos_virt/service/service.py:59-76 | after any number of iterations, exactly the outputs and actions of those iterations have been added |
| Agent.Agent.RunService | macos_virt/service/service.py:9-76 | without a port, nothing is written; with a port, the startup frames follow, then, if startup succeeded, the loop's frames and actions |
| Agent.OpenPort | macos_virt/service/service.py:10-16 | the first attempt that opens the port, or none exactly when no attempt does |
| CloudInit.SetUser | macos_virt/profiles/ubuntu.py:59-65 | succeeds exactly when the template has a second user with a key list; that user gets the name, gecos and first key; every other key and user is unchanged; a missing `users` raises `KeyError` |
| CloudInit.AppendServiceFiles | macos_virt/profiles/alpine.py:70-89 | appends the boot-install and service files after the existing `write_files`, leaving everything else; a non-list `write_files` raises `AttributeError` |
| Profiles.PlatformFor | macos_virt/profiles/__init__.py:11-14 | `amd64` exactly on `x86_64`, `arm64` otherwise |
| Profiles.NameInjective | macos_virt/profiles/registry.py:18-22 | distinct profiles have distinct registry names |
| Profiles.ProfileDirectory | macos_virt/profiles/__init__.py:21-22 | the cache directory is the profile's name under the base path |
| Profiles.ProcessDownloaded | macos_virt/profiles/alpine.py:21-31 | post-processing fails exactly for Alpine (`gzip` is not imported, so `NameError`) |
| Profiles.BootFiles | macos_virt/profiles/ubuntu.py:31-36 | Alpine has fixed boot names; Ubuntu takes the greatest listing names containing `vmlinuz` and `initrd`, or raises `IndexError` when either is missing |
| Profiles.UbuntuProfilesAgree | macos_virt/profiles/ubuntu.py:68-107 | the later Ubuntu releases inherit boot-file selection and rendering unchanged |
| Profiles.AlpineRenderExtendsUbuntu | macos_virt/profiles/alpine.py:64-90 | Alpine's user data is Ubuntu's with the two service files appended, and fails whenever Ubuntu's does |
| Profiles.ProfileCache.RequiredFilesExist | macos_virt/profiles/__init__.py:36-42 | creates the profile directory and answers whether every cached file is present |
| Profiles.ProfileCache.DownloadRequiredFiles | macos_virt/profiles/__init__.py:49-63 | a complete cache is left alone; otherwise every cache path is downloaded, then post-processed |
| Profiles.ProfileCache.FileLocations | macos_virt/profiles/__init__.py:25-33 | returns the cache paths, all present, unless downloading was needed and post-processing raised |
| Registry.Registry.AddProfile | macos_virt/profiles/registry.py:8-9 | binds the profile under its name, appending the name only if new, and keeps the order/map invariant |
| Registry.Registry.GetDistributions | macos_virt/profiles/registry.py:11-12 | the registered names, in insertion order, each once |
| Registry.Registry.GetProfile | macos_virt/profiles/registry.py:14-15 | the registered profile, or `KeyError` exactly when the name is unknown |
| Registry.LoadRegistry | macos_virt/profiles/registry.py:18-22 | the module-level registry holds the three Ubuntu releases in that order, each under its own distinct name (by `Profiles.NameInjective`) |
| Controller.ApplyStatus | macos_virt/controller.py:245-269 | the status is saved; a "running" message that completes raises `VMStarted` after the last `192.168` address is stored; a non-object raises `TypeError`, no status `KeyError`; the address changes only on `VMStarted` |
| Controller.Watch | macos_virt/controller.py:297-306 | the watch always ends by raising; only status and address change; `VMStarted` leaves the VM provisioned; no line, or a line `json.loads` rejects, raises the decode error; a read that fails (the control device closed) raises `SerialException`; either keeps the record as last saved |
| Controller.WatchSkipsProgress | macos_virt/controller.py:245-261 | a non-running status is saved and the watch continues with the next line |
| Controller.InetPairsWellFormed | macos_virt/service/service.py:38-42 | every address pair the agent sends unpacks into a string address |
| Controller.HeartbeatStartsVm | macos_virt/controller.py:262-269 | the agent's heartbeat completes the start: status running, last `192.168` address of the main interface (or the old one), `VMStarted` |
| Controller.StartupSequenceStartsVm | macos_virt/controller.py:297-306 | watching the agent's three startup messages starts the VM, whatever follows |
| Controller.DyingGuestFailsWatch | macos_virt/controller.py:302-306 | a guest that dies after "initializing" makes the next read raise `SerialException`, with "initializing" saved |
| Controller.BootResult | macos_virt/controller.py:216-227 | the socket is opened twice: a first open that fails raises the runner's exit code with the record unchanged; a second open (the watch's, through `get_status_port`) that fails raises the uncaught `SerialException` with the record unchanged; otherwise exactly the watch's outcome; `VMStarted` implies both opens succeeded and the VM is provisioned |
| Controller.SshArgv | macos_virt/controller.py:110-114 | `ssh` with no host-key check, the controller's key and the VM's address, followed by the caller's arguments unchanged |
| Controller.Host.GetVmDirectory | macos_virt/controller.py:80-83 | creates the VM's directory and returns its path |
| Controller.Host.Manager | macos_virt/controller.py:86-92 | loading a VM fails with `FileNotFoundError` for a missing record and `KeyError` for an unknown profile |
| Controller.Host.WatchInitialization | macos_virt/controller.py:297-306 | a control socket that does not open raises `SerialException` with the records unchanged; otherwise the record becomes the watch's result, and the watch's exception is raised |
| Controller.Host.BootVm | macos_virt/controller.py:190-227 | launches the runner once with the argv of the record, then saves and raises the boot result, including a failure of either control-socket open; only status and address change |
| Controller.Host.PrepareDisks | macos_virt/controller.py:153-162 | the root disk gets its padded size and the boot disk its fixed size |
| Controller.Host.WriteCloudInit | macos_virt/controller.py:163-187 | the VM's user data becomes the profile's rendering, or the rendering's error is raised with nothing written |
| Controller.Host.Provision | macos_virt/controller.py:149-188 | the whole effect (`Provisioned`): a failed post-processing changes nothing; otherwise the disks are sized, then a rendering error stops it with no launch, or the user data is written, the runner is launched once from the cached kernel and initrd, and the record and raise are the boot's result |
| Controller.Host.BootNormally | macos_virt/controller.py:284-295 | the whole effect (`BootedNormally`): a boot volume without kernel or initrd raises `IndexError` (or the missing file's error) and changes nothing; otherwise one launch from the temporary copies, the boot's record and raise, and disks and user data kept |
| Controller.Host.StartStopped | macos_virt/controller.py:123-129 | the whole effect (`StartedStopped`): an uninitialized VM has exactly `Provisioned`'s effect, a "running" one exactly `BootedNormally`'s, any other status returns with nothing changed |
| Controller.Host.VmStart | macos_virt/controller.py:123-129 | the whole effect (`Started`): an unreadable pid file raises `ValueError` and a running VM `VMRunning`, both changing nothing; otherwise exactly `StartedStopped`'s effect |
| Controller.Host.StartKnown | macos_virt/controller.py:318-325 | a loading error or an unprovisioned record raises (`DuplicateVMException`) with nothing changed; a provisioned VM has exactly `VmStart`'s effect |
| Controller.Host.StartNew | macos_virt/controller.py:326-345 | the new record is written; an unknown profile then raises `KeyError` with nothing else changed; otherwise exactly `VmStart`'s effect on the new record, which provisions it unless a stale pid file says it runs |
| Controller.Host.Start | macos_virt/controller.py:317-345 | makes the directory, then has exactly `StartKnown`'s effect for a known name and `StartNew`'s for a new one |
| Controller.Host.Stop | macos_virt/controller.py:136-147 | creates the directory; a running VM with an open control socket gets exactly one power-off frame; otherwise the loading, pid or `VMNotRunning` error, or `SerialException`, with nothing written |
| Controller.Host.Delete | macos_virt/controller.py:347-355 | an unknown VM raises `VMDoesntExist` and changes nothing; a known one that cannot be deleted keeps record, pid file, disks and user data, and its directory exists; a stopped one has its record, pid file, directory and disks removed |
| Controller.Host.Shell | macos_virt/controller.py:362-369 | an unknown VM raises `VMDoesntExist`; otherwise the loading, pid, `VMNotRunning` or missing-address error, or the ssh argv for the VM's address |
| LegacyProfiles.CacheDirectory | src/profiles/__init__.py:21-23 | joining a profile's name with its version fails with `TypeError` exactly when the version is missing |
| LegacyProfiles.CheckFiles | src/profiles/__init__.py:26-30 | false exactly when some required file is missing, otherwise no value; never true |
| LegacyProfiles.CheckRequiredFiles | src/profiles/__init__.py:26-30 | the file check within the cache directory, failing exactly when the version is missing |
| LegacyProfiles.Ubuntu2004HasNoCache | src/profiles/__init__.py:17-30 | the only registered profile has no version, so its cache directory and file check both raise `TypeError` |
| LegacyRegistry.LegacyRegistry.AddProfile | src/profiles/registry.py:8-9 | binds the profile under its name, appending the name only if new |
| LegacyRegistry.LegacyRegistry.GetDistributions | src/profiles/registry.py:11-12 | the registered names, in insertion order, each once |
| LegacyRegistry.LegacyRegistry.GetVersionsFor | src/profiles/registry.py:14-15 | all registered names sorted (the argument is ignored): sorted and a permutation of the keys |
| LegacyRegistry.LegacyRegistry.GetProfile | src/profiles/registry.py:17-18 | the registered profile, or `KeyError` exactly when unknown |
| LegacyRegistry.LoadRegistry | src/profiles/registry.py:21-23 | the registry holds only `ubuntu-20.04`, and the file check of every registered profile raises `TypeError` (by `LegacyProfiles.Ubuntu2004HasNoCache`) |
| LegacyController.ApplyLegacy | src/controller.py:169-180 | saves the status; on "running" with addresses, the last address containing `192.168.68` (or the old one) is stored; errors as in the newer revision; no exception ends the watch |
| LegacyController.ReadStatuses | src/controller.py:165-167 | exactly `count` lines are read; a missing or undecodable line raises the decode error and a failing read `SerialException`, keeping the record as last saved; success means every line read decoded, the last was a status object and its status is saved |
| LegacyController.ReadSkipsProgress | src/controller.py:169-180 | a status without addresses is saved and reading continues with one line fewer |
| LegacyController.ReadHeartbeat | src/controller.py:169-180 | the agent's heartbeat as the last line saves "running" and the last `192.168.68` address |
| LegacyController.StartupSequenceBoots | src/controller.py:162-167 | the agent's three startup messages complete the boot and leave the VM provisioned |
| LegacyController.SilentGuestFailsBoot | src/controller.py:165-166 | a guest without cloud-init sends one line, so the second read raises the decode error |
| LegacyController.DyingGuestFailsBoot | src/controller.py:165-167 | a guest that dies after "initializing" makes the second read raise `SerialException`, with "initializing" saved |
| LegacyController.LegacyBootFiles | src/controller.py:199-203 | succeeds exactly when the listing has names starting with `vmlinuz` and `initrd`, and returns the least of each; otherwise `IndexError` |
| LegacyController.BootOutcome | src/controller.py:196-211 | missing boot files raise `IndexError`, a closed control socket raises and saves nothing, success implies three decoded lines |
| LegacyController.StartupSequenceProvisions | src/controller.py:196-211 | a normal boot of a guest that runs the agent succeeds and leaves the VM provisioned |
| LegacyController.LegacyHost.GetVmDirectory | src/controller.py:54-57 | creates the VM's directory and returns its path |
| LegacyController.LegacyHost.Manager | src/controller.py:60-66 | loading fails with `FileNotFoundError` for a missing record and `KeyError` for an unknown profile |
| LegacyController.LegacyHost.BootVm | src/controller.py:146-167 | launches `vmcli` once; a closed socket raises `SerialException` with the records unchanged; otherwise the record becomes that of reading three status lines |
| LegacyController.LegacyHost.Provision | src/controller.py:105-107 | always raises `AttributeError` |
| LegacyController.LegacyHost.BootNormally | src/controller.py:196-211 | missing boot files raise `IndexError` and change nothing; otherwise one volume launch and the record of the three-line read |
| LegacyController.LegacyHost.VmStart | src/controller.py:97-103 | an unreadable pid file or a running VM changes nothing; an uninitialized VM raises `AttributeError`; a "running" VM boots normally; other statuses do nothing |
| LegacyController.LegacyHost.Start | src/controller.py:221-249 | as written: a new name raises `FileNotFoundError` and nothing is recorded or launched; an existing VM is started or raises `DuplicateVMException` |
| LegacyController.LegacyHost.StartCorrected | src/controller.py:221-249 | with the existence check first: a new name gets its fresh record and no launch, then raises `KeyError` for an unknown profile, `ValueError` for an unreadable pid file, `VMRunning` for a live one, and otherwise `provision`'s `AttributeError`; a known name has every branch of `Start` (loading errors, `DuplicateVMException`, the pid checks, the normal boot's effect) |
| LegacyController.LegacyHost.Delete | src/controller.py:251-259 | an unknown VM raises and changes nothing; a known one that cannot be deleted keeps its record and pid file, and its directory exists; a stopped one has its record, pid file and directory removed |
| LegacyController.LegacyHost.Shell | src/controller.py:261-268 | an unknown VM raises `VMDoesntExist`; otherwise the loading, pid, `VMNotRunning` or missing-address error, or ssh with no extra arguments |

## Left out

- Kernel decompression with `gzip` at macos_virt/controller.py:191-198 is left out. The runner is given the kernel path it is passed: the cache path in `provision`, the temporary copy in `boot_normally`. File contents are not modelled.
- The runner is a recorded launch (`Controller.Launch`), and `cp` of the base disk is its size (`Env.baseDiskSize`). Both are recorded, not run.
- The ISO that `pycdlib` builds is the user-data document per VM.
- Not modelled at all: `screen` (it only attaches a console), `ssh-keygen` (command-line setup), and `tar` (see `process_downloaded_files` below).
- In the guest, the exit of `cloud-init status --wait` is the parameter `Agent.CloudInitExit`.
- Console output is not modelled, because it does not affect any state: `print_status`, status spinners, `typer` echo and Rich output.
- Sleeps and retries at fixed intervals are not modelled, because they carry no state. The agent's port retry is kept as a sequence of attempts.
- How YAML and JSON are written and read is not modelled. `json.dumps` is a parameter. The user data is a `Json` value per VM, and the loaded cloud-init template is an input.
- Vm.Items / Vm.EntryAddress: a JSON object, whether it is the whole `network_addresses` value or one address entry, is treated as `TypeError`. Python iterates a dict's keys in insertion order, so an object entry whose first key starts with `192.168` would become the address. `Json` objects are maps, which have no key order, so this case is not modelled.
- In the older revision, an address entry that is a list or an object is treated as `TypeError`. Python's substring test would act on it instead.
- An integer key `0` in a user's `ssh-authorized-keys` mapping cannot be represented, because `Json` objects have string keys.
- Undecodable bytes on the control line are folded into the decode error. A read that fails is modelled by `ReadFails`, which stands for the read on which the control device is found closed; what the guest sent afterwards is never read.
- Process liveness is an oracle: a set of live pids.
- A `vm.json` that exists is assumed to parse.
- Opening the boot volume is assumed to succeed.
- `Controller.Host.ValidVms`, `LegacyController.LegacyHost.Start` and `LegacyController.LegacyHost.StartCorrected`: the directory glob is the key set of the records. Dot-named directories that `glob` would hide are not modelled. For such a name the older revision's `start` would read its `vm.json`, take the create branch and overwrite the record; the model treats every recorded name as found by the glob.
- The profile URL getters and the base class's `NotImplementedError` hooks are left out. Downloads are recorded by path, and the downloader module is not part of this model.
- `tar` extraction in `process_downloaded_files` is not modelled, and neither is the `extracted_name` it uses. `Profiles.ProcessDownloaded` gives only the outcome (Ubuntu succeeds, Alpine raises `NameError`), and the cache's files are unchanged by it.
- The class-level `profiles` dictionary of each registry is modelled as the state of one registry object.
- Constants such as file names, `BASE_PATH`, `KEY_PATH` and the runner path are constructor parameters (`Vm.VmFiles`, `Profiles.CacheNames`).
- The command-line layer is not part of this model: `typer` commands, `setup`, the entitlement signing, and `get_ssh_public_key` reading the key file.
- Vm.ExitCode: gives the `code` class attribute each exception declares. The exceptions are raised with a message as their only argument (`VMStarted("VM Successfully started.")`). The command-line library may take that argument as the exit status, which would make the process exit with status 1 even after `VMStarted`. That library is not part of this model, so the process's actual exit status is not stated.
- Vm.PaddingChunks: Python divides in floating point before `int` truncates; the model divides exactly, which differs only for sizes beyond 2^53 bytes.
- Controller.Host.Start: the generated MAC address is a parameter of three bytes rather than drawn at random.
- Controller.Host.Provision: the copy of the base disk is recorded by its size only, and the ISO is the user data.

## Findings

| source | as written | input that shows it | evidently intended | confidence | as-written member | corrected member |
|---|---|---|---|---|---|---|
| src/controller.py:223-225 | `start` loads `vm.json` through `VMManager` before checking whether the VM exists, so the create branch at lines 232-249 never runs for a new name | `start` with any name that has no VM directory yet: loading `vm.json` raises `FileNotFoundError` and no VM is created | check existence first, and create and start a new VM as the newer revision does | not executed | LegacyController.LegacyHost.Start | LegacyController.LegacyHost.StartCorrected |
