/**
 * The QEMU cluster of mantle/platform/machine/qemu/cluster.go: how NewMachineWithOptions and
 * NewMachineWithQemuOptions layer the flight's options, the caller's machine options and the
 * QEMU builder's defaults into one machine configuration, in which order their steps can fail,
 * and how `Destroy` raises `tearingDown` so that the exit watcher of every machine stays quiet
 * while the cluster is taken down.
 */
module QemuCluster {
  import opened Wrappers
  import opened GoStrings
  import Metal
  import DiskSpec

  const InstanceTypeError: string := "platform qemu does not support changing instance types"
  const ConfigKindError: string := "qemu only supports Ignition or empty configs"
  const MemoryContext: string := "parsing memory option"
  const AbnormalExit: string := "QEMU process finished abnormally: "
  const MountRoot: string := "/kola/host/"
  /** Secure Execution needs at least 4 GiB. */
  const SecureExecutionMemory: int := 4096

  // ---------------------------------------------------------------- options

  /** What `conf.Conf` reports about the rendered user data: Ignition, empty, or another kind. */
  datatype ConfigKind = IgnitionConfig | EmptyConfig | OtherConfig

  datatype HostForwardPort = HostForwardPort(service: string, hostPort: int, guestPort: int)

  /** The platform.Disk fields this file sets; `deviceOpts` stands for the fields it leaves
    * as ParseDisk made them. */
  datatype Disk = Disk(channel: string, sectorSize: int, logicalSectorSize: int, multiPathDisk: bool,
                       size: string, backingFile: string, deviceOpts: seq<string>)

  /** The zero value of platform.Disk. */
  const ZeroDisk: Disk := Disk("", 0, 0, false, "", "", [])

  datatype Mount = Mount(src: string, dest: string, readonly: bool)

  /** The flight's options (the `kola` command line) that machine creation reads. */
  datatype FlightOptions = FlightOptions(
    arch: string, firmware: string, swtpm: bool, memory: string, secureExecution: bool,
    cex: bool, nvme: bool, native4k: bool, disk512e: bool, multiPathDisk: bool,
    diskSize: string, diskImage: string, bindRO: seq<string>)

  /** platform.MachineOptions: what a test asks of one machine. */
  datatype MachineOptions = MachineOptions(
    instanceType: string, firmware: string, minMemory: int, primaryDisk: string,
    additionalDisks: seq<string>, cex: bool, nvme: bool, multiPathDisk: bool, minDiskSize: int,
    overrideBackingFile: string, hostForwardPorts: seq<HostForwardPort>, additionalNics: int,
    appendKernelArgs: string, appendFirstbootKernelArgs: string, skipStartMachine: bool,
    disablePDeathSig: bool)

  /** platform.QemuMachineOptions: the machine options and a firmware of its own. */
  datatype QemuMachineOptions = QemuMachineOptions(machine: MachineOptions, firmware: string)

  /** The steps whose outcome the model takes from the environment. */
  datatype Step =
    | Mkdir | RenderUserData | NewJournal | SecureExecution | WriteConfig | SetArchitecture
    | AddCexDevice | AddBootDisk | AddDisks | Exec | SshAddress | StartMachine

  /** What NewQemuBuilder starts from. */
  datatype BuilderDefaults = BuilderDefaults(memoryMiB: int, firmware: string, arch: string)

  /** The inputs machine creation takes from outside: the uuid it draws, the serial the base
    * cluster allocates, the address SSHAddress reports, what ParseDisk makes of the primary
    * disk specification, the builder's defaults, and the error of each failing step. */
  datatype Env = Env(uuid: string, serial: nat, sshAddress: string, parsedDisk: Result<Disk, string>,
                     defaults: BuilderDefaults, failing: map<Step, string>)

  /** The text of a strconv.NumError from ParseInt. */
  function ParseIntErrorText(s: string, e: NumError): string {
    "strconv.ParseInt: parsing \"" + s + "\": " + (if e == Syntax then "invalid syntax" else "value out of range")
  }

  // ---------------------------------------------------------------- resolution rules

  /** Where the rendered config goes: `ignition.json` in the machine directory for Ignition,
    * nowhere for an empty config; any other kind is refused. */
  function ConfigPath(conf: ConfigKind, dir: string): (r: Result<string, string>)
    ensures r.Err? <==> conf.OtherConfig?
    ensures r.Err? ==> r.error == ConfigKindError
    ensures r.Ok? ==> (r.value == "" <==> conf.EmptyConfig?)
  {
    match conf
    case IgnitionConfig => Ok(PathJoin(dir, "ignition.json"))
    case EmptyConfig => Ok("")
    case OtherConfig => Err(ConfigKindError)
  }

  /** The memory a machine gets: the flight's Memory string parsed as a 32-bit decimal when it
    * is set, else a non-zero MinMemory, else 4096 MiB under Secure Execution, else `fallback`. */
  function ResolveMemory(flight: FlightOptions, minMemory: int, fallback: int): Result<int, string> {
    if flight.memory != "" then
      match ParseInt32(flight.memory)
      case Err(e) => Err(Metal.Wrap(MemoryContext, ParseIntErrorText(flight.memory, e)))
      case Ok(v) => Ok(v)
    else if minMemory != 0 then Ok(minMemory)
    else if flight.secureExecution then Ok(SecureExecutionMemory)
    else Ok(fallback)
  }

  /** The firmware a machine boots: the machine's own, else the flight's, else `fallback`. */
  function ResolveFirmware(flight: FlightOptions, firmware: string, fallback: string): string {
    if firmware != "" then firmware else if flight.firmware != "" then flight.firmware else fallback
  }

  /** The primary disk as the caller specified it, before the flight's flags apply. */
  function ParsedPrimary(o: MachineOptions, env: Env): Result<Disk, string> {
    if o.primaryDisk == "" then Ok(ZeroDisk)
    else match env.parsedDisk
      case Err(e) => Err(Metal.Wrap("parsing primary disk spec '" + o.primaryDisk + "'", e))
      case Ok(d) => Ok(d)
  }

  /** The primary disk after the flight's and the machine's flags, field by field. */
  function ResolveDisk(parsed: Disk, flight: FlightOptions, o: MachineOptions): Disk {
    Disk(
      channel := if flight.nvme || o.nvme then "nvme" else parsed.channel,
      sectorSize := if flight.native4k || flight.disk512e then 4096 else parsed.sectorSize,
      logicalSectorSize := if !flight.native4k && flight.disk512e then 512 else parsed.logicalSectorSize,
      multiPathDisk := parsed.multiPathDisk || o.multiPathDisk || flight.multiPathDisk,
      size := if o.minDiskSize > 0 then NatToString(o.minDiskSize) + "G"
              else if flight.diskSize != "" then flight.diskSize else parsed.size,
      backingFile := if o.overrideBackingFile != "" then o.overrideBackingFile else flight.diskImage,
      deviceOpts := parsed.deviceOpts)
  }

  const SshForward: HostForwardPort := HostForwardPort("ssh", 0, 22)

  /** The caller's port forwards, or else forwarding of the guest's SSH port alone. */
  function ResolveForwards(ports: seq<HostForwardPort>): (r: seq<HostForwardPort>)
    ensures |r| > 0
    ensures |ports| > 0 ==> r == ports
    ensures ports == [] ==> r == [SshForward]
  {
    if |ports| > 0 then ports else [SshForward]
  }

  /** strings.TrimLeft(s, "/"): `s` without its leading slashes. */
  function TrimLeftSlashes(s: string): (r: string)
    ensures |r| <= |s| && r == s[|s| - |r|..]
    ensures r == [] || r[0] != '/'
    ensures forall i :: 0 <= i < |s| - |r| ==> s[i] == '/'
  {
    if s != [] && s[0] == '/' then TrimLeftSlashes(s[1..]) else s
  }

  /** The read-only host mounts for the flight's BindRO paths, in their order. */
  function BindMounts(paths: seq<string>): (r: seq<Mount>)
    ensures |r| == |paths|
    ensures forall i :: 0 <= i < |paths| ==> r[i].src == paths[i] && r[i].readonly
  {
    seq(|paths|, i requires 0 <= i < |paths| => Mount(paths[i], MountRoot + TrimLeftSlashes(paths[i]), true))
  }

  lemma BindMountsSnoc(paths: seq<string>, i: nat)
    requires i < |paths|
    ensures BindMounts(paths[..i + 1]) == BindMounts(paths[..i]) + [Mount(paths[i], MountRoot + TrimLeftSlashes(paths[i]), true)]
  {
    assert paths[..i + 1][..i] == paths[..i];
  }

  function Hostname(serial: nat): string {
    "qemu" + NatToString(serial)
  }

  /** The log line the exit watcher writes when a machine's QEMU process ends: only when Wait
    * reports an error and the cluster is not being torn down. */
  function ExitLog(waitErr: Option<string>, tearingDown: bool): (line: Option<string>)
    ensures line.Some? <==> waitErr.Some? && !tearingDown
  {
    if waitErr.Some? && !tearingDown then Some(AbnormalExit + waitErr.value) else None
  }

  // ---------------------------------------------------------------- properties of the rules

  /** A flight Memory that is a decimal below 2^31 is the memory the machine gets, whatever the
    * machine options and Secure Execution say. */
  lemma FlightMemoryWins(flight: FlightOptions, n: nat, minMemory: int, fallback: int)
    requires flight.memory == NatToString(n) && n < Int32Cutoff
    ensures ResolveMemory(flight, minMemory, fallback) == Ok(n)
  {
    ParseInt32OfNatToString(n);
  }

  /** Memory resolution fails exactly when the flight's Memory is set and does not parse, and
    * any memory it takes from the flight is a 32-bit value. */
  lemma MemoryErrors(flight: FlightOptions, minMemory: int, fallback: int)
    ensures ResolveMemory(flight, minMemory, fallback).Err? <==> flight.memory != "" && ParseInt32(flight.memory).Err?
    ensures flight.memory != "" && ResolveMemory(flight, minMemory, fallback).Ok? ==>
      -(Int32Cutoff as int) <= ResolveMemory(flight, minMemory, fallback).value < Int32Cutoff
  {
  }

  /** Without a flight Memory, a non-zero MinMemory is used even under Secure Execution, and
    * Secure Execution alone raises the default to 4096. */
  lemma MemoryWithoutFlight(flight: FlightOptions, minMemory: int, fallback: int)
    requires flight.memory == ""
    ensures minMemory != 0 ==> ResolveMemory(flight, minMemory, fallback) == Ok(minMemory)
    ensures minMemory == 0 && flight.secureExecution ==> ResolveMemory(flight, minMemory, fallback) == Ok(4096)
    ensures minMemory == 0 && !flight.secureExecution ==> ResolveMemory(flight, minMemory, fallback) == Ok(fallback)
  {
  }

  /** Native4k takes precedence over Disk512e: the logical sector size is left alone. */
  lemma Native4kWins(parsed: Disk, flight: FlightOptions, o: MachineOptions)
    requires flight.native4k
    ensures ResolveDisk(parsed, flight, o).sectorSize == 4096
    ensures ResolveDisk(parsed, flight, o).logicalSectorSize == parsed.logicalSectorSize
  {
  }

  /** A MinDiskSize below 2^31 is written so that the disk-spec parser reads it back. */
  lemma MinDiskSizeReadsBack(parsed: Disk, flight: FlightOptions, o: MachineOptions)
    requires 0 < o.minDiskSize < Int32Cutoff
    ensures DiskSpec.Parse(ResolveDisk(parsed, flight, o).size, false) == Ok(DiskSpec.DiskSpec(o.minDiskSize, map[]))
  {
    DiskSpec.ParseFormat(o.minDiskSize, [], false);
    assert DiskSpec.Format(o.minDiskSize, []) == NatToString(o.minDiskSize) + "G";
  }

  /** Flags only ever switch the disk to NVMe and multipath, never away from them. */
  lemma DiskFlagsMonotone(parsed: Disk, flight: FlightOptions, o: MachineOptions)
    ensures parsed.multiPathDisk ==> ResolveDisk(parsed, flight, o).multiPathDisk
    ensures (flight.nvme || o.nvme) ==> ResolveDisk(parsed, flight, o).channel == "nvme"
    ensures !(flight.nvme || o.nvme) ==> ResolveDisk(parsed, flight, o).channel == parsed.channel
    ensures ResolveDisk(parsed, flight, o).deviceOpts == parsed.deviceOpts
  {
  }

  /** A non-empty machine firmware overrides the flight's, whatever the builder's default. */
  lemma MachineFirmwareWins(flight: FlightOptions, firmware: string, fallback: string)
    ensures firmware != "" ==> ResolveFirmware(flight, firmware, fallback) == firmware
    ensures firmware == "" && flight.firmware != "" ==> ResolveFirmware(flight, firmware, fallback) == flight.firmware
    ensures firmware == "" && flight.firmware == "" ==> ResolveFirmware(flight, firmware, fallback) == fallback
  {
  }

  /** Leading slashes do not change where a path is mounted, and every mount lands strictly
    * below /kola/host/ without a doubled slash. */
  lemma MountDestinations(path: string)
    ensures TrimLeftSlashes("/" + path) == TrimLeftSlashes(path)
    ensures MountRoot <= BindMounts([path])[0].dest
    ensures |BindMounts([path])[0].dest| > |MountRoot| ==> BindMounts([path])[0].dest[|MountRoot|] != '/'
  {
    assert ("/" + path)[1..] == path;
  }

  /** Once teardown has begun no exit is logged; before it, every failed Wait is. */
  lemma TeardownSilencesWatcher(waitErr: Option<string>)
    ensures ExitLog(waitErr, true) == None
    ensures waitErr.Some? ==> ExitLog(waitErr, false) == Some(AbnormalExit + waitErr.value)
  {
  }

  // ---------------------------------------------------------------- the QEMU builder

  /** The builder fields machine creation sets (platform.QemuBuilder). */
  class QemuBuilder {
    var pdeathsig: bool
    var secureExecution: bool
    var configFile: string
    var uuid: string
    var arch: string
    var firmware: string
    var swtpm: bool
    var hostname: string
    var consoleFile: string
    var mounts: seq<Mount>
    var memoryMiB: int
    var cexDevice: bool
    var bootDisk: Option<Disk>
    var additionalDisks: seq<string>
    var forwards: seq<HostForwardPort>
    var usermodeNetworking: bool
    var additionalNics: int
    var appendKernelArgs: string
    var appendFirstbootKernelArgs: string
    var restrictNetworking: bool

    /** NewQemuBuilder: the fields machine creation later reads or extends hold their defaults. */
    predicate Defaults(d: BuilderDefaults)
      reads this
    {
      && arch == d.arch && firmware == d.firmware && memoryMiB == d.memoryMiB && mounts == []
      && additionalNics == 0 && appendKernelArgs == "" && appendFirstbootKernelArgs == ""
      && !restrictNetworking && !cexDevice
    }

    constructor (d: BuilderDefaults)
      ensures Defaults(d) && pdeathsig && !secureExecution && configFile == ""
    {
      pdeathsig := true;
      secureExecution := false;
      configFile := "";
      uuid := "";
      arch := d.arch;
      firmware := d.firmware;
      swtpm := false;
      hostname := "";
      consoleFile := "";
      mounts := [];
      memoryMiB := d.memoryMiB;
      cexDevice := false;
      bootDisk := None;
      additionalDisks := [];
      forwards := [];
      usermodeNetworking := false;
      additionalNics := 0;
      appendKernelArgs := "";
      appendFirstbootKernelArgs := "";
      restrictNetworking := false;
    }

    method MountHost(src: string, dest: string, readonly: bool)
      modifies this`mounts
      ensures mounts == old(mounts) + [Mount(src, dest, readonly)]
    {
      mounts := mounts + [Mount(src, dest, readonly)];
    }

    method EnableUsermodeNetworking(h: seq<HostForwardPort>)
      modifies this`forwards, this`usermodeNetworking
      ensures forwards == h && usermodeNetworking
    {
      forwards := h;
      usermodeNetworking := true;
    }
  }

  /** A machine of the cluster (the `machine` struct), with the builder it was made from. */
  class Machine {
    const id: string
    const consolePath: string
    const builder: QemuBuilder
    var running: bool
    var ip: string
    var started: bool
    var destroyed: bool

    constructor (id: string, consolePath: string, builder: QemuBuilder)
      ensures this.id == id && this.consolePath == consolePath && this.builder == builder
      ensures !running && ip == "" && !started && !destroyed
    {
      this.id := id;
      this.consolePath := consolePath;
      this.builder := builder;
      running := false;
      ip := "";
      started := false;
      destroyed := false;
    }

    method Destroy()
      modifies this`destroyed
      ensures destroyed
    {
      destroyed := true;
    }
  }

  // ---------------------------------------------------------------- the cluster

  class Cluster {
    const outputDir: string
    const internetAccess: bool
    const flight: FlightOptions
    var dirs: set<string>
    var machines: seq<Machine>
    var tearingDown: bool
    var baseDestroyed: bool
    /** Whether `tearingDown` was already up when the base cluster was destroyed. */
    var baseDestroyedInTeardown: bool
    var inFlight: bool
    var log: seq<string>

    constructor (outputDir: string, internetAccess: bool, flight: FlightOptions)
      ensures this.outputDir == outputDir && this.internetAccess == internetAccess && this.flight == flight
      ensures dirs == {} && machines == [] && !tearingDown && !baseDestroyed && inFlight && log == []
    {
      this.outputDir := outputDir;
      this.internetAccess := internetAccess;
      this.flight := flight;
      dirs := {};
      machines := [];
      tearingDown := false;
      baseDestroyed := false;
      baseDestroyedInTeardown := false;
      inFlight := true;
      log := [];
    }

    function MachineDir(env: Env): string {
      PathJoin(outputDir, env.uuid)
    }

    /** The first error of the steps before the builder is configured, in source order. */
    function SetupError(conf: ConfigKind, env: Env): Option<string> {
      if Step.Mkdir in env.failing then Lookup(env.failing, Step.Mkdir)
      else if Step.RenderUserData in env.failing then Lookup(env.failing, Step.RenderUserData)
      else if Step.NewJournal in env.failing then Lookup(env.failing, Step.NewJournal)
      else PrepareError(conf, env)
    }

    function PrepareError(conf: ConfigKind, env: Env): Option<string> {
      if flight.secureExecution && Step.SecureExecution in env.failing then Lookup(env.failing, Step.SecureExecution)
      else if conf.OtherConfig? then Some(ConfigKindError)
      else if conf.IgnitionConfig? && Step.WriteConfig in env.failing then Lookup(env.failing, Step.WriteConfig)
      else None
    }

    /** The first error while the builder is configured. */
    function ConfigureError(o: MachineOptions, env: Env): Option<string> {
      if flight.arch != "" && Step.SetArchitecture in env.failing then Lookup(env.failing, Step.SetArchitecture)
      else if ResolveMemory(flight, o.minMemory, env.defaults.memoryMiB).Err? then
        Some(ResolveMemory(flight, o.minMemory, env.defaults.memoryMiB).error)
      else DiskError(o, env)
    }

    function DiskError(o: MachineOptions, env: Env): Option<string> {
      if ParsedPrimary(o, env).Err? then Some(ParsedPrimary(o, env).error)
      else if (flight.cex || o.cex) && Step.AddCexDevice in env.failing then Lookup(env.failing, Step.AddCexDevice)
      else if Step.AddBootDisk in env.failing then Lookup(env.failing, Step.AddBootDisk)
      else Lookup(env.failing, Step.AddDisks)
    }

    /** The first error while the machine is started. */
    function LaunchError(o: MachineOptions, env: Env): Option<string> {
      if Step.Exec in env.failing then Lookup(env.failing, Step.Exec)
      else if Step.SshAddress in env.failing then Lookup(env.failing, Step.SshAddress)
      else if !o.skipStartMachine then Lookup(env.failing, Step.StartMachine)
      else None
    }

    /** The error NewMachineWithQemuOptions returns, if any. */
    function MachineError(conf: ConfigKind, options: QemuMachineOptions, env: Env): Option<string> {
      if SetupError(conf, env).Some? then SetupError(conf, env)
      else if ConfigureError(options.machine, env).Some? then ConfigureError(options.machine, env)
      else LaunchError(options.machine, env)
    }

    /** The builder fields set before the flight's options are read. */
    ghost predicate Prepared(b: QemuBuilder, conf: ConfigKind, o: MachineOptions, env: Env)
      reads b`pdeathsig, b`secureExecution, b`configFile
    {
      && b.pdeathsig == !o.disablePDeathSig
      && b.secureExecution == flight.secureExecution
      && ConfigPath(conf, MachineDir(env)) == Ok(b.configFile)
    }

    /** The builder fields the flight's options, the machine options and the defaults decide. */
    ghost predicate Configured(b: QemuBuilder, options: QemuMachineOptions, env: Env)
      reads b
    {
      var o := options.machine;
      && FlightApplied(b, env)
      && b.firmware == ResolveFirmware(flight, options.firmware, env.defaults.firmware)
      && MemoryApplied(b, o, env)
      && DiskConfigured(b, o, env)
      && NetworkConfigured(b, o)
    }

    ghost predicate FlightApplied(b: QemuBuilder, env: Env)
      reads b`uuid, b`arch, b`swtpm, b`hostname, b`consoleFile, b`mounts
    {
      && b.uuid == env.uuid
      && b.arch == (if flight.arch != "" then flight.arch else env.defaults.arch)
      && b.swtpm == flight.swtpm
      && b.hostname == Hostname(env.serial)
      && b.consoleFile == PathJoin(MachineDir(env), "console.txt")
      && b.mounts == BindMounts(flight.bindRO)
    }

    ghost predicate MemoryApplied(b: QemuBuilder, o: MachineOptions, env: Env)
      reads b`memoryMiB
    {
      ResolveMemory(flight, o.minMemory, env.defaults.memoryMiB) == Ok(b.memoryMiB)
    }

    ghost predicate DiskConfigured(b: QemuBuilder, o: MachineOptions, env: Env)
      reads b`cexDevice, b`bootDisk, b`additionalDisks
    {
      && b.cexDevice == (flight.cex || o.cex)
      && ParsedPrimary(o, env).Ok?
      && b.bootDisk == Some(ResolveDisk(ParsedPrimary(o, env).value, flight, o))
      && b.additionalDisks == o.additionalDisks
    }

    ghost predicate NetworkConfigured(b: QemuBuilder, o: MachineOptions)
      reads b`forwards, b`usermodeNetworking, b`additionalNics, b`appendKernelArgs
      reads b`appendFirstbootKernelArgs, b`restrictNetworking
    {
      && b.forwards == ResolveForwards(o.hostForwardPorts) && b.usermodeNetworking
      && b.additionalNics == (if o.additionalNics > 0 then o.additionalNics else 0)
      && b.appendKernelArgs == o.appendKernelArgs
      && b.appendFirstbootKernelArgs == o.appendFirstbootKernelArgs
      && b.restrictNetworking == !internetAccess
    }

    /** A machine that was started: QEMU runs, its address is known, and StartMachine ran
      * unless the caller skipped it. */
    ghost predicate Launched(m: Machine, o: MachineOptions, env: Env)
      reads m
    {
      m.running && m.ip == env.sshAddress && m.started == !o.skipStartMachine && !m.destroyed
    }

    /** NewMachineWithOptions: a machine type cannot be chosen on QEMU; otherwise the machine's
      * own Firmware becomes the QEMU options' firmware. */
    method NewMachineWithOptions(conf: ConfigKind, options: MachineOptions, env: Env) returns (r: Result<Machine, string>)
      modifies this`dirs, this`machines
      ensures options.instanceType != "" ==> (r == Err(InstanceTypeError) && dirs == old(dirs) && machines == old(machines))
      ensures options.instanceType == "" ==>
        (r.Err? <==> MachineError(conf, QemuMachineOptions(options, options.firmware), env).Some?)
      ensures r.Ok? ==> (fresh(r.value) && fresh(r.value.builder) && machines == old(machines) + [r.value])
      ensures r.Ok? ==> Configured(r.value.builder, QemuMachineOptions(options, options.firmware), env)
      ensures r.Err? ==> machines == old(machines)
    {
      if options.instanceType != "" {
        return Err(InstanceTypeError);
      }
      r := NewMachineWithQemuOptions(conf, QemuMachineOptions(options, options.firmware), env);
    }

    /** NewMachineWithQemuOptions: creates the machine directory, configures a builder from the
      * layered options, starts QEMU and registers the machine. */
    method NewMachineWithQemuOptions(conf: ConfigKind, options: QemuMachineOptions, env: Env) returns (r: Result<Machine, string>)
      modifies this`dirs, this`machines
      ensures r.Err? <==> MachineError(conf, options, env).Some?
      ensures r.Err? ==> (r.error == MachineError(conf, options, env).value && machines == old(machines))
      ensures dirs == if Step.Mkdir in env.failing then old(dirs) else old(dirs) + {MachineDir(env)}
      ensures r.Ok? ==> (fresh(r.value) && fresh(r.value.builder) && machines == old(machines) + [r.value])
      ensures r.Ok? ==> Prepared(r.value.builder, conf, options.machine, env)
      ensures r.Ok? ==> Configured(r.value.builder, options, env)
      ensures r.Ok? ==> (r.value.id == env.uuid && Launched(r.value, options.machine, env))
    {
      var dir := MachineDir(env);
      if Step.Mkdir in env.failing {
        return Err(env.failing[Step.Mkdir]);
      }
      dirs := dirs + {dir};
      if Step.RenderUserData in env.failing {
        return Err(env.failing[Step.RenderUserData]);
      }
      if Step.NewJournal in env.failing {
        return Err(env.failing[Step.NewJournal]);
      }
      var b, err := NewBuilder(conf, options, env);
      if err.Some? {
        return Err(err.value);
      }
      var qm := new Machine(env.uuid, PathJoin(dir, "console.txt"), b);
      err := Launch(qm, options.machine, env);
      if err.Some? {
        return Err(err.value);
      }
      machines := machines + [qm];
      r := Ok(qm);
    }

    /** NewQemuBuilder and every builder setting up to the firmware override. */
    method NewBuilder(conf: ConfigKind, options: QemuMachineOptions, env: Env) returns (b: QemuBuilder, err: Option<string>)
      ensures fresh(b)
      ensures err == if PrepareError(conf, env).Some? then PrepareError(conf, env) else ConfigureError(options.machine, env)
      ensures err.None? ==> (Prepared(b, conf, options.machine, env) && Configured(b, options, env))
    {
      b := new QemuBuilder(env.defaults);
      err := Prepare(b, conf, options.machine, env);
      if err.Some? {
        return;
      }
      err := ConfigureBuilder(b, options, env);
    }

    /** PDeathSig, Secure Execution and the config file. */
    method Prepare(b: QemuBuilder, conf: ConfigKind, o: MachineOptions, env: Env) returns (err: Option<string>)
      requires b.pdeathsig && !b.secureExecution
      modifies b`pdeathsig, b`secureExecution, b`configFile
      ensures err == PrepareError(conf, env)
      ensures err.None? ==> Prepared(b, conf, o, env)
    {
      if o.disablePDeathSig {
        b.pdeathsig := false;
      }
      if flight.secureExecution {
        if Step.SecureExecution in env.failing {
          return Some(env.failing[Step.SecureExecution]);
        }
        b.secureExecution := true;
      }
      var confPath: string;
      if conf.IgnitionConfig? {
        confPath := PathJoin(MachineDir(env), "ignition.json");
        if Step.WriteConfig in env.failing {
          return Some(env.failing[Step.WriteConfig]);
        }
      } else if conf.EmptyConfig? {
        confPath := "";
      } else {
        return Some(ConfigKindError);
      }
      b.configFile := confPath;
      err := None;
    }

    /** Everything from the uuid to the firmware override, in source order. */
    method ConfigureBuilder(b: QemuBuilder, options: QemuMachineOptions, env: Env) returns (err: Option<string>)
      requires b.Defaults(env.defaults)
      modifies b`uuid, b`arch, b`firmware, b`swtpm, b`hostname, b`consoleFile, b`mounts, b`memoryMiB
      modifies b`cexDevice, b`bootDisk, b`additionalDisks, b`forwards, b`usermodeNetworking
      modifies b`additionalNics, b`appendKernelArgs, b`appendFirstbootKernelArgs, b`restrictNetworking
      ensures err == ConfigureError(options.machine, env)
      ensures err.None? ==> Configured(b, options, env)
    {
      err := ApplyFlight(b, env);
      if err.Some? {
        return;
      }
      err := ApplyDevices(b, options, env);
    }

    /** Memory, disks and networking. */
    method ApplyDevices(b: QemuBuilder, options: QemuMachineOptions, env: Env) returns (err: Option<string>)
      requires b.memoryMiB == env.defaults.memoryMiB && !b.cexDevice
      requires b.additionalNics == 0 && b.appendKernelArgs == "" && b.appendFirstbootKernelArgs == ""
      requires !b.restrictNetworking
      modifies b`firmware, b`memoryMiB
      modifies b`cexDevice, b`bootDisk, b`additionalDisks, b`forwards, b`usermodeNetworking
      modifies b`additionalNics, b`appendKernelArgs, b`appendFirstbootKernelArgs, b`restrictNetworking
      ensures var m := ResolveMemory(flight, options.machine.minMemory, env.defaults.memoryMiB);
        err == if m.Err? then Some(m.error) else DiskError(options.machine, env)
      ensures err.None? ==> (MemoryApplied(b, options.machine, env) && DiskConfigured(b, options.machine, env))
      ensures err.None? ==> NetworkConfigured(b, options.machine)
      ensures err.None? ==> b.firmware == if options.firmware != "" then options.firmware else old(b.firmware)
    {
      err := ApplyMemory(b, options.machine, env);
      if err.Some? {
        return;
      }
      err := ApplyDisks(b, options.machine, env);
      if err.Some? {
        return;
      }
      ApplyNetworking(b, options);
    }

    /** The uuid, the flight's architecture, firmware and TPM, the hostname, the console file
      * and the read-only host mounts. */
    method ApplyFlight(b: QemuBuilder, env: Env) returns (err: Option<string>)
      requires b.arch == env.defaults.arch && b.firmware == env.defaults.firmware && b.mounts == []
      modifies b`uuid, b`arch, b`firmware, b`swtpm, b`hostname, b`consoleFile, b`mounts
      ensures err == (if flight.arch != "" then Lookup(env.failing, Step.SetArchitecture) else None)
      ensures err.None? ==> (FlightApplied(b, env) && b.firmware == ResolveFirmware(flight, "", env.defaults.firmware))
    {
      b.uuid := env.uuid;
      if flight.arch != "" {
        if Step.SetArchitecture in env.failing {
          return Some(env.failing[Step.SetArchitecture]);
        }
        b.arch := flight.arch;
      }
      if flight.firmware != "" {
        b.firmware := flight.firmware;
      }
      b.swtpm := flight.swtpm;
      b.hostname := Hostname(env.serial);
      b.consoleFile := PathJoin(MachineDir(env), "console.txt");
      MountBindRO(b, flight.bindRO);
      err := None;
    }

    /** One read-only mount below /kola/host/ per BindRO path. */
    static method MountBindRO(b: QemuBuilder, paths: seq<string>)
      requires b.mounts == []
      modifies b`mounts
      ensures b.mounts == BindMounts(paths)
    {
      for i := 0 to |paths|
        invariant b.mounts == BindMounts(paths[..i])
      {
        var destpathrel := TrimLeftSlashes(paths[i]);
        b.MountHost(paths[i], MountRoot + destpathrel, true);
        BindMountsSnoc(paths, i);
      }
      assert paths[..|paths|] == paths;
    }

    /** The memory precedence: flight Memory, MinMemory, Secure Execution, the default. */
    method ApplyMemory(b: QemuBuilder, o: MachineOptions, env: Env) returns (err: Option<string>)
      requires b.memoryMiB == env.defaults.memoryMiB
      modifies b`memoryMiB
      ensures var m := ResolveMemory(flight, o.minMemory, env.defaults.memoryMiB);
        err == (if m.Err? then Some(m.error) else None)
      ensures err.None? ==> MemoryApplied(b, o, env)
    {
      if flight.memory != "" {
        var memory := ParseInt32(flight.memory);
        if memory.Err? {
          return Some(Metal.Wrap(MemoryContext, ParseIntErrorText(flight.memory, memory.error)));
        }
        b.memoryMiB := memory.value;
      } else if o.minMemory != 0 {
        b.memoryMiB := o.minMemory;
      } else if flight.secureExecution {
        b.memoryMiB := SecureExecutionMemory;
      }
      err := None;
    }

    /** The primary disk, the Cex device and the additional disks. */
    method ApplyDisks(b: QemuBuilder, o: MachineOptions, env: Env) returns (err: Option<string>)
      requires !b.cexDevice
      modifies b`cexDevice, b`bootDisk, b`additionalDisks
      ensures err == DiskError(o, env)
      ensures err.None? ==> DiskConfigured(b, o, env)
    {
      var primaryDisk := ZeroDisk;
      if o.primaryDisk != "" {
        if env.parsedDisk.Err? {
          return Some(Metal.Wrap("parsing primary disk spec '" + o.primaryDisk + "'", env.parsedDisk.error));
        }
        primaryDisk := env.parsedDisk.value;
      }
      if flight.cex || o.cex {
        if Step.AddCexDevice in env.failing {
          return Some(env.failing[Step.AddCexDevice]);
        }
        b.cexDevice := true;
      }
      primaryDisk := ApplyDiskFlags(primaryDisk, o);
      if Step.AddBootDisk in env.failing {
        return Some(env.failing[Step.AddBootDisk]);
      }
      b.bootDisk := Some(primaryDisk);
      if Step.AddDisks in env.failing {
        return Some(env.failing[Step.AddDisks]);
      }
      b.additionalDisks := o.additionalDisks;
      err := None;
    }

    /** The flight's and the machine's disk flags, applied one field at a time. */
    method ApplyDiskFlags(parsed: Disk, o: MachineOptions) returns (d: Disk)
      ensures d == ResolveDisk(parsed, flight, o)
    {
      d := parsed;
      if flight.nvme || o.nvme {
        d := d.(channel := "nvme");
      }
      if flight.native4k {
        d := d.(sectorSize := 4096);
      } else if flight.disk512e {
        d := d.(sectorSize := 4096, logicalSectorSize := 512);
      }
      if o.multiPathDisk || flight.multiPathDisk {
        d := d.(multiPathDisk := true);
      }
      if o.minDiskSize > 0 {
        d := d.(size := NatToString(o.minDiskSize) + "G");
      } else if flight.diskSize != "" {
        d := d.(size := flight.diskSize);
      }
      d := d.(backingFile := flight.diskImage);
      if o.overrideBackingFile != "" {
        d := d.(backingFile := o.overrideBackingFile);
      }
    }

    /** Port forwards, extra NICs, kernel arguments, network restriction and the firmware
      * override. */
    method ApplyNetworking(b: QemuBuilder, options: QemuMachineOptions)
      requires b.additionalNics == 0 && b.appendKernelArgs == "" && b.appendFirstbootKernelArgs == ""
      requires !b.restrictNetworking
      modifies b`forwards, b`usermodeNetworking, b`additionalNics, b`appendKernelArgs
      modifies b`appendFirstbootKernelArgs, b`restrictNetworking, b`firmware
      ensures NetworkConfigured(b, options.machine)
      ensures b.firmware == if options.firmware != "" then options.firmware else old(b.firmware)
    {
      var o := options.machine;
      if |o.hostForwardPorts| > 0 {
        b.EnableUsermodeNetworking(o.hostForwardPorts);
      } else {
        b.EnableUsermodeNetworking([SshForward]);
      }
      if o.additionalNics > 0 {
        b.additionalNics := o.additionalNics;
      }
      if o.appendKernelArgs != "" {
        b.appendKernelArgs := o.appendKernelArgs;
      }
      if o.appendFirstbootKernelArgs != "" {
        b.appendFirstbootKernelArgs := o.appendFirstbootKernelArgs;
      }
      if !internetAccess {
        b.restrictNetworking := true;
      }
      if options.firmware != "" {
        b.firmware := options.firmware;
      }
    }

    /** Exec, the SSH address and StartMachine; a machine that fails to start is destroyed. */
    method Launch(qm: Machine, o: MachineOptions, env: Env) returns (err: Option<string>)
      requires !qm.running && qm.ip == "" && !qm.started && !qm.destroyed
      modifies qm
      ensures err == LaunchError(o, env)
      ensures err.None? ==> Launched(qm, o, env)
      ensures Step.Exec !in env.failing && Step.SshAddress !in env.failing && err.Some? ==> qm.destroyed
      ensures Step.Exec !in env.failing && Step.SshAddress in env.failing ==> qm.running && !qm.destroyed
    {
      if Step.Exec in env.failing {
        return Some(env.failing[Step.Exec]);
      }
      qm.running := true;
      if Step.SshAddress in env.failing {
        return Some(env.failing[Step.SshAddress]);
      }
      qm.ip := env.sshAddress;
      if !o.skipStartMachine {
        if Step.StartMachine in env.failing {
          qm.Destroy();
          return Some(env.failing[Step.StartMachine]);
        }
        qm.started := true;
      }
      err := None;
    }

    /** The exit watcher of a machine, when its QEMU process ends with `waitErr`. */
    method WatchExit(waitErr: Option<string>)
      modifies this`log
      ensures log == old(log) + (if ExitLog(waitErr, tearingDown).Some? then [ExitLog(waitErr, tearingDown).value] else [])
    {
      if waitErr.Some? && !tearingDown {
        log := log + [AbnormalExit + waitErr.value];
      }
    }

    /** BaseCluster.Destroy, which takes down every machine of the cluster. */
    method DestroyBase()
      modifies this`baseDestroyed, this`baseDestroyedInTeardown
      ensures baseDestroyed && baseDestroyedInTeardown == tearingDown
    {
      baseDestroyed := true;
      baseDestroyedInTeardown := tearingDown;
    }

    /** Destroy: raises `tearingDown` before the machines are taken down, then leaves the flight. */
    method Destroy()
      modifies this`tearingDown, this`baseDestroyed, this`baseDestroyedInTeardown, this`inFlight
      ensures tearingDown && baseDestroyed && baseDestroyedInTeardown && !inFlight
    {
      tearingDown := true;
      DestroyBase();
      inFlight := false;
    }

    /** A machine that exits once teardown has begun, as the machines the base cluster kills
      * do, leaves the log as it was. */
    method ExitAfterDestroy(waitErr: Option<string>)
      modifies this`tearingDown, this`baseDestroyed, this`baseDestroyedInTeardown, this`inFlight, this`log
      ensures log == old(log) && tearingDown
    {
      Destroy();
      WatchExit(waitErr);
    }
  }
}
