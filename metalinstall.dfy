/**
 * The install flows of mantle/platform/metal.go as state changes: Install.setup, runPXE,
 * completePxeSetup, installerRun.run and destroy, Install.PXE, InstallViaISOEmbed and
 * InstalledMachine.Destroy. The host is modelled by the directories and the computed text files
 * it holds and by the log of external commands run; every operating-system or tool step takes
 * its outcome from the environment. The point of the model is temp-directory ownership: every
 * failure leaves the host as it was, success hands the directory to the InstalledMachine.
 */
module MetalInstall {
  import opened Wrappers
  import opened GoStrings
  import opened Metal

  // ---------------------------------------------------------------- paths and the host

  /** `path` is `root` or lies below it. */
  predicate Under(path: string, root: string) {
    path == root || root + "/" <= path
  }

  lemma UnderJoin(root: string, name: string)
    ensures Under(PathJoin(root, name), root)
  {
    assert (root + "/" + name)[..|root| + 1] == root + "/";
  }

  lemma UnderTrans(path: string, mid: string, root: string)
    requires Under(path, mid) && Under(mid, root)
    ensures Under(path, root)
  {
    if path != mid && mid != root {
      assert path[..|mid| + 1] == mid + "/";
      assert path[..|root| + 1] == mid[..|root| + 1];
    }
  }

  /** The host holds `dirs` and `files` that extend `d0` and `f0` by entries below `root` only,
    * and nothing of `d0` or `f0` lies below `root`. */
  ghost predicate Owned(d0: set<string>, f0: map<string, FileContent>, dirs: set<string>, files: map<string, FileContent>, root: string) {
    && (forall d :: d in d0 ==> d in dirs && !Under(d, root))
    && (forall d :: d in dirs && d !in d0 ==> Under(d, root))
    && (forall p :: p in f0 ==> p in files && files[p] == f0[p] && !Under(p, root))
    && (forall p :: p in files && p !in f0 ==> Under(p, root))
  }

  lemma OwnedMkdir(d0: set<string>, f0: map<string, FileContent>, dirs: set<string>, files: map<string, FileContent>, root: string, path: string)
    requires Owned(d0, f0, dirs, files, root) && Under(path, root)
    ensures Owned(d0, f0, dirs + {path}, files, root)
  {
  }

  lemma OwnedWrite(d0: set<string>, f0: map<string, FileContent>, dirs: set<string>, files: map<string, FileContent>, root: string, path: string, text: FileContent)
    requires Owned(d0, f0, dirs, files, root) && Under(path, root)
    ensures Owned(d0, f0, dirs, files[path := text], root)
  {
  }

  function KeepDirs(dirs: set<string>, root: string): set<string> {
    set d | d in dirs && !Under(d, root)
  }

  function KeepFiles(files: map<string, FileContent>, root: string): map<string, FileContent> {
    map p | p in files && !Under(p, root) :: files[p]
  }

  /** Removing the owned directory gives back exactly the host as it was before. */
  lemma RemoveAllRestores(d0: set<string>, f0: map<string, FileContent>, dirs: set<string>, files: map<string, FileContent>, root: string)
    requires Owned(d0, f0, dirs, files, root)
    ensures KeepDirs(dirs, root) == d0
    ensures KeepFiles(files, root) == f0
  {
    assert KeepFiles(files, root).Keys == f0.Keys;
  }

  /** What the flows write into a file. A boot loader configuration is kept as the parameters
    * of its template; `Rendered` gives the text that lands on disk. */
  datatype FileContent =
    | Text(text: string)
    | BootConfig(boottype: BootType, arch: string, kernel: string, initramfs: string, kargsLine: string)

  function Rendered(content: FileContent): string {
    match content
    case Text(text) => text
    case BootConfig(boottype, arch, kernel, initramfs, kargsLine) => BootConfigText(boottype, arch, kernel, initramfs, kargsLine)
  }

  /** The parts of the host the install flows change: directories, the text files whose content
    * the flows compute, and the external commands run so far. */
  class Host {
    var dirs: set<string>
    var files: map<string, FileContent>
    var commands: seq<seq<string>>

    constructor (dirs: set<string>, files: map<string, FileContent>)
      ensures this.dirs == dirs && this.files == files && commands == []
    {
      this.dirs := dirs;
      this.files := files;
      commands := [];
    }

    /** Nothing on the host lies below `root`, as for a name os.MkdirTemp picks. */
    predicate Fresh(root: string)
      reads this
    {
      (forall d :: d in dirs ==> !Under(d, root)) && (forall p :: p in files ==> !Under(p, root))
    }

    method Mkdir(path: string)
      modifies this
      ensures dirs == old(dirs) + {path} && files == old(files) && commands == old(commands)
    {
      dirs := dirs + {path};
    }

    method WriteFile(path: string, text: FileContent)
      modifies this
      ensures files == old(files)[path := text] && dirs == old(dirs) && commands == old(commands)
    {
      files := files[path := text];
    }

    method Run(argv: seq<string>)
      modifies this
      ensures commands == old(commands) + [argv] && dirs == old(dirs) && files == old(files)
    {
      commands := commands + [argv];
    }

    /** Runs an external command: it is logged whether or not it fails. */
    method Exec(argv: seq<string>, env: Env) returns (err: Option<string>)
      modifies this
      ensures commands == old(commands) + [argv] && dirs == old(dirs) && files == old(files)
      ensures err == Lookup(env.failing, Op.Run(argv))
    {
      commands := commands + [argv];
      err := if Op.Run(argv) in env.failing then Some(env.failing[Op.Run(argv)]) else None;
    }

    /** Writes a text file unless the environment makes the write fail. */
    method TryWrite(path: string, text: FileContent, env: Env) returns (err: Option<string>)
      modifies this
      ensures err == Lookup(env.failing, Op.WriteFile(path))
      ensures err.None? ==> files == old(files)[path := text]
      ensures err.Some? ==> files == old(files)
      ensures dirs == old(dirs) && commands == old(commands)
    {
      err := if Op.WriteFile(path) in env.failing then Some(env.failing[Op.WriteFile(path)]) else None;
      if err.None? {
        files := files[path := text];
      }
    }

    /** os.RemoveAll as the deferred cleanups use it: they discard its error, and the model takes
      * the removal to succeed. */
    method RemoveAll(root: string)
      modifies this
      ensures dirs == KeepDirs(old(dirs), root) && files == KeepFiles(old(files), root)
      ensures commands == old(commands)
    {
      dirs := KeepDirs(dirs, root);
      files := KeepFiles(files, root);
    }
  }

  // ---------------------------------------------------------------- environment

  /** The operating-system and tool steps whose outcome the model takes from the environment. */
  datatype Op =
    | MkdirTemp
    | Mkdir(path: string)
    | WriteConfig(path: string)
    | WriteFile(path: string)
    | Symlink(dest: string)
    | Remove(path: string)
    | Cat(out: string)
    | Chmod(path: string)
    | Listen
    | RenderPointer
    | VirtioChannel
    | AddIso
    | Exec
    | Run(argv: seq<string>)

  /** The process-global inputs (architecture, COSA_TESTISO_DEBUG, the temp name os.MkdirTemp
    * picks, the port the listener gets) and the error each failing step returns. */
  datatype Env = Env(arch: string, debug: bool, tempName: string, port: nat, failing: map<Op, string>)

  function Baseurl(host: string, port: nat): string {
    "http://" + host + ":" + NatToString(port)
  }

  // ---------------------------------------------------------------- build artifacts

  /** The build's metadata: the path of each artifact it records, the error GetArtifact gives for
    * one it does not, and the artifact files whose os.Stat reports that they do not exist. A stat
    * that fails for another reason (permission denied, say) does not count as missing: the
    * source ignores that error. */
  datatype Build = Build(dir: string, version: string, artifacts: map<string, string>,
                         lookupError: string, missing: set<string>)

  /** checkArtifactsExist as a function: the first artifact not in the metadata or whose file is
    * missing makes the error. */
  function ArtifactsError(build: Build, names: seq<string>): (err: Option<string>)
    ensures err.None? <==> forall i :: 0 <= i < |names| ==> ArtifactPresent(build, names[i])
  {
    if names == [] then None
    else
      var name := names[0];
      if name !in build.artifacts then
        Some("Missing artifact " + name + " for " + build.version + " build: " + build.lookupError)
      else if PathJoin(build.dir, build.artifacts[name]) in build.missing then
        Some("Missing local file for artifact " + name + " for build " + build.version)
      else
        var rest := ArtifactsError(build, names[1..]);
        assert forall i :: 1 <= i < |names| ==> names[i] == names[1..][i - 1];
        rest
  }

  predicate ArtifactPresent(build: Build, name: string) {
    name in build.artifacts && PathJoin(build.dir, build.artifacts[name]) !in build.missing
  }

  method CheckArtifactsExist(build: Build, names: seq<string>) returns (err: Option<string>)
    ensures err == ArtifactsError(build, names)
  {
    var i := 0;
    while i < |names|
      invariant 0 <= i <= |names|
      invariant ArtifactsError(build, names) == ArtifactsError(build, names[i..])
    {
      assert names[i..][1..] == names[i + 1..];
      var name := names[i];
      if name !in build.artifacts {
        return Some("Missing artifact " + name + " for " + build.version + " build: " + build.lookupError);
      }
      if PathJoin(build.dir, build.artifacts[name]) in build.missing {
        return Some("Missing local file for artifact " + name + " for build " + build.version);
      }
      i := i + 1;
    }
    return None;
  }

  function MetalArtifact(native4k: bool): string {
    if native4k then "metal4k" else "metal"
  }

  // ---------------------------------------------------------------- QEMU

  class QemuInstance {
    var destroyCount: nat

    constructor ()
      ensures destroyCount == 0
    {
      destroyCount := 0;
    }

    method Destroy()
      modifies this
      ensures destroyCount == old(destroyCount) + 1
    {
      destroyCount := destroyCount + 1;
    }
  }

  /** The live Ignition config's additions the flows make: units, unit drop-ins, files (the
    * installer directive and the target payload) and the autologin flag. */
  datatype LiveConfig = LiveConfig(
    units: seq<string>,
    dropins: seq<(string, string)>,
    files: seq<(string, FileBody)>,
    autoLogin: bool)

  datatype FileBody = Directive(config: InstallerConfig) | Target(payload: Payload)

  /** The target config the installer applies: the config itself, or a pointer config that
    * fetches it from `source`. */
  datatype Payload = Embedded | Pointer(source: string)

  const DirectivePath: string := "/etc/coreos/installer.d/mantle.yaml"

  /** The part of QemuBuilder the flows drive. */
  class Builder {
    const firmware: string
    var args: seq<string>
    var closed: bool
    var channels: seq<string>
    var config: Option<LiveConfig>
    var isos: seq<(string, string)>
    var usermodeNetworking: bool

    constructor (firmware: string)
      ensures this.firmware == firmware && args == [] && !closed && channels == []
      ensures config == None && isos == [] && !usermodeNetworking
    {
      this.firmware := firmware;
      args := [];
      closed := false;
      channels := [];
      config := None;
      isos := [];
      usermodeNetworking := false;
    }

    method Append(more: seq<string>)
      modifies this
      ensures args == old(args) + more
      ensures closed == old(closed) && channels == old(channels) && config == old(config)
      ensures isos == old(isos) && usermodeNetworking == old(usermodeNetworking)
    {
      args := args + more;
    }

    method VirtioChannelRead(name: string, env: Env) returns (err: Option<string>)
      modifies this
      ensures err.Some? <==> VirtioChannel in env.failing
      ensures err.Some? ==> err.value == env.failing[VirtioChannel] && channels == old(channels)
      ensures err.None? ==> channels == old(channels) + [name]
      ensures args == old(args) && closed == old(closed) && config == old(config)
      ensures isos == old(isos) && usermodeNetworking == old(usermodeNetworking)
    {
      if VirtioChannel in env.failing {
        return Some(env.failing[VirtioChannel]);
      }
      channels := channels + [name];
      return None;
    }

    method SetConfig(c: LiveConfig)
      modifies this
      ensures config == Some(c)
      ensures args == old(args) && closed == old(closed) && channels == old(channels)
      ensures isos == old(isos) && usermodeNetworking == old(usermodeNetworking)
    {
      config := Some(c);
    }

    /** AddIso: attaches an ISO with the given boot index unless the environment makes it fail. */
    method AddIso(path: string, bootindex: string, env: Env) returns (err: Option<string>)
      modifies this
      ensures err == Lookup(env.failing, Op.AddIso)
      ensures err.None? ==> isos == old(isos) + [(path, bootindex)]
      ensures err.Some? ==> isos == old(isos)
      ensures args == old(args) && closed == old(closed) && channels == old(channels) && config == old(config)
      ensures usermodeNetworking == old(usermodeNetworking)
    {
      err := Lookup(env.failing, Op.AddIso);
      if err.None? {
        isos := isos + [(path, bootindex)];
      }
    }

    method Close()
      modifies this
      ensures closed
      ensures args == old(args) && channels == old(channels) && config == old(config)
      ensures isos == old(isos) && usermodeNetworking == old(usermodeNetworking)
    {
      closed := true;
    }

    method Exec(env: Env) returns (r: Result<QemuInstance, string>)
      ensures r.Err? <==> Op.Exec in env.failing
      ensures r.Err? ==> r.error == env.failing[Op.Exec]
      ensures r.Ok? ==> fresh(r.value) && r.value.destroyCount == 0
    {
      if Op.Exec in env.failing {
        return Err(env.failing[Op.Exec]);
      }
      var q := new QemuInstance();
      return Ok(q);
    }
  }

  // ---------------------------------------------------------------- the installed machine

  class InstalledMachine {
    var qemuInst: QemuInstance?
    var tempdir: string
    var bootWatched: bool

    /** The machine switchBootOrderSignal has attached its watchers to. */
    constructor (qemuInst: QemuInstance, tempdir: string)
      ensures this.qemuInst == qemuInst && this.tempdir == tempdir && bootWatched
    {
      this.qemuInst := qemuInst;
      this.tempdir := tempdir;
      bootWatched := true;
    }

    /** InstalledMachine.Destroy: destroys the VM and drops the handle, then removes the temp
      * directory it owns and returns os.RemoveAll's error. `removeErr` is that error: a removal
      * that fails may have removed part of the tree, never anything outside it. */
    method Destroy(host: Host, removeErr: Option<string>) returns (err: Option<string>)
      modifies this, host, qemuInst
      ensures qemuInst == null && tempdir == old(tempdir)
      ensures err == (if old(tempdir) != "" then removeErr else None)
      ensures old(qemuInst) != null ==> old(qemuInst).destroyCount == old(qemuInst.destroyCount) + 1
      ensures old(tempdir) != "" && removeErr.None? ==>
        host.dirs == KeepDirs(old(host.dirs), old(tempdir)) && host.files == KeepFiles(old(host.files), old(tempdir))
      ensures old(tempdir) != "" && removeErr.Some? ==>
        PartlyRemoved(old(host.dirs), old(host.files), host.dirs, host.files, old(tempdir))
      ensures old(tempdir) == "" ==> host.dirs == old(host.dirs) && host.files == old(host.files)
      ensures host.commands == old(host.commands)
    {
      if qemuInst != null {
        qemuInst.Destroy();
        qemuInst := null;
      }
      if tempdir != "" {
        if removeErr.None? {
          host.RemoveAll(tempdir);
        }
        return removeErr;
      }
      return None;
    }
  }

  /** A removal of `root` that stopped part way: what is left lies between the host without the
    * tree and the host as it was. */
  ghost predicate PartlyRemoved(d0: set<string>, f0: map<string, FileContent>, dirs: set<string>, files: map<string, FileContent>, root: string) {
    && KeepDirs(d0, root) <= dirs <= d0
    && (forall p :: p in KeepFiles(f0, root) ==> p in files)
    && (forall p :: p in files ==> p in f0 && files[p] == f0[p])
  }

  /** Destroying twice destroys the VM once: the second call finds no handle. Each call runs
    * os.RemoveAll on the same temp directory and reports its outcome, `removeErr1` and
    * `removeErr2`. Once either removal succeeds the tree is gone; if both fail, part of it
    * may be left but nothing outside it is touched. */
  method DestroyTwice(m: InstalledMachine, host: Host, removeErr1: Option<string>, removeErr2: Option<string>)
    returns (err1: Option<string>, err2: Option<string>)
    requires m.qemuInst != null
    modifies m, host, m.qemuInst
    ensures old(m.qemuInst).destroyCount == old(m.qemuInst.destroyCount) + 1
    ensures m.qemuInst == null
    ensures err1 == (if old(m.tempdir) != "" then removeErr1 else None)
    ensures err2 == (if old(m.tempdir) != "" then removeErr2 else None)
    ensures old(m.tempdir) != "" && (removeErr1.None? || removeErr2.None?) ==>
      host.dirs == KeepDirs(old(host.dirs), old(m.tempdir)) && host.files == KeepFiles(old(host.files), old(m.tempdir))
    ensures old(m.tempdir) != "" && removeErr1.Some? && removeErr2.Some? ==>
      PartlyRemoved(old(host.dirs), old(host.files), host.dirs, host.files, old(m.tempdir))
    ensures old(m.tempdir) == "" ==> host.dirs == old(host.dirs) && host.files == old(host.files)
  {
    ghost var d0, f0 := host.dirs, host.files;
    err1 := m.Destroy(host, removeErr1);
    ghost var d1, f1 := host.dirs, host.files;
    err2 := m.Destroy(host, removeErr2);
    if m.tempdir != "" {
      if removeErr1.None? {
        KeepTwice(d0, f0, m.tempdir);
      } else if removeErr2.None? {
        RemoveAfterPartial(d0, f0, d1, f1, m.tempdir);
      }
    }
  }

  /** A second removal of the same tree finds nothing left to remove. */
  lemma KeepTwice(d0: set<string>, f0: map<string, FileContent>, root: string)
    ensures KeepDirs(KeepDirs(d0, root), root) == KeepDirs(d0, root)
    ensures KeepFiles(KeepFiles(f0, root), root) == KeepFiles(f0, root)
  {
  }

  /** Removing a tree after a partial removal of it leaves what a single full removal leaves. */
  lemma RemoveAfterPartial(d0: set<string>, f0: map<string, FileContent>, dirs: set<string>, files: map<string, FileContent>, root: string)
    requires PartlyRemoved(d0, f0, dirs, files, root)
    ensures KeepDirs(dirs, root) == KeepDirs(d0, root)
    ensures KeepFiles(files, root) == KeepFiles(f0, root)
  {
    assert KeepFiles(files, root).Keys == KeepFiles(f0, root).Keys;
  }

  // ---------------------------------------------------------------- steps that may fail

  /** The error of the first failing step, if any. */
  function FirstFailure(ops: seq<Op>, failing: map<Op, string>): (err: Option<string>)
    ensures err.None? <==> forall i :: 0 <= i < |ops| ==> ops[i] !in failing
    ensures err.Some? ==> exists i :: 0 <= i < |ops| && ops[i] in failing && err.value == failing[ops[i]]
  {
    if ops == [] then None
    else if ops[0] in failing then Some(failing[ops[0]])
    else
      var rest := FirstFailure(ops[1..], failing);
      assert forall i :: 1 <= i < |ops| ==> ops[i] == ops[1..][i - 1];
      rest
  }

  /** Runs steps in order and stops at the first that fails, as the source's loops of
    * `if err := step(); err != nil { return err }` do. */
  method RunSteps(ops: seq<Op>, env: Env) returns (err: Option<string>)
    ensures err == FirstFailure(ops, env.failing)
  {
    var i := 0;
    while i < |ops|
      invariant 0 <= i <= |ops|
      invariant FirstFailure(ops, env.failing) == FirstFailure(ops[i..], env.failing)
    {
      assert ops[i..][1..] == ops[i + 1..];
      if ops[i] in env.failing {
        return Some(env.failing[ops[i]]);
      }
      i := i + 1;
    }
    return None;
  }

  /** The deferred `os.RemoveAll(tempdir)` that runs while the flow still owns the directory. */
  method CleanupTempdir(host: Host, root: string, ghost d0: set<string>, ghost f0: map<string, FileContent>)
    requires Owned(d0, f0, host.dirs, host.files, root)
    modifies host
    ensures host.dirs == d0 && host.files == f0 && host.commands == old(host.commands)
  {
    host.RemoveAll(root);
    RemoveAllRestores(d0, f0, old(host.dirs), old(host.files), root);
  }

  /** Paths below the TFTP directory lie below the temp directory. */
  lemma UnderTftp(root: string, name: string)
    ensures Under(PathJoin(PathJoin(root, "tftp"), name), root)
  {
    UnderJoin(PathJoin(root, "tftp"), name);
    UnderJoin(root, "tftp");
    UnderTrans(PathJoin(PathJoin(root, "tftp"), name), PathJoin(root, "tftp"), root);
  }

  // ---------------------------------------------------------------- the live Ignition config

  const BootStartedUnit: string := "boot-started.service"
  const MultipathUnit: string := "coreos-installer-multipath.service"
  const InstallerUnit: string := "coreos-installer.service"
  const MultipathDropin: string := "wait-for-mpath-target.conf"

  function AddUnit(c: LiveConfig, name: string): LiveConfig {
    c.(units := c.units + [name])
  }

  function AddFile(c: LiveConfig, path: string, body: FileBody): LiveConfig {
    c.(files := c.files + [(path, body)])
  }

  /** What Install.setup adds to the live config of a PXE install. */
  function WithBootStarted(c: LiveConfig): LiveConfig {
    AddUnit(c.(autoLogin := true), BootStartedUnit)
  }

  // ---------------------------------------------------------------- PXE boot files

  datatype KernelSetup = KernelSetup(kernel: string, initramfs: string, rootfs: string)

  const Syslinux: string := "/usr/share/syslinux"
  const CpReflink: string := "/usr/lib/coreos-assembler/cp-reflink"

  function PxeConfigDir(tftpdir: string): string {
    PathJoin(tftpdir, "pxelinux.cfg")
  }

  /** Where completePxeSetup writes the boot loader configuration. */
  function BootConfigPath(boottype: BootType, tftpdir: string): string {
    match boottype
    case Pxe => PathJoin(PxeConfigDir(tftpdir), "default")
    case Grub => PathJoin(tftpdir, "boot/grub2/grub.cfg")
  }

  function MkS390ImageArgv(tftpdir: string, kern: KernelSetup): seq<string> {
    ["/usr/bin/mk-s390image", PathJoin(tftpdir, kern.kernel), "-r", PathJoin(tftpdir, kern.initramfs),
     "-p", BootConfigPath(Pxe, tftpdir), PathJoin(tftpdir, "pxelinux.0")]
  }

  function CpReflinkArgv(src: string, dst: string): seq<string> {
    [CpReflink, src, dst]
  }

  function MknetdirArgv(tftpdir: string): seq<string> {
    ["grub2-mknetdir", "--net-directory=" + tftpdir]
  }

  /** The syslinux images copied for the `pxe` boot type when there is a PXE image path. */
  const SyslinuxImages: seq<string> := ["pxelinux.0", "ldlinux.c32"]

  /** The external commands completePxeSetup runs, in order. */
  function BootCommands(pxe: PxeSetup, tftpdir: string, kern: KernelSetup): seq<seq<string>> {
    match pxe.boottype
    case Pxe =>
      if pxe.pxeimagepath == "" then [MkS390ImageArgv(tftpdir, kern)]
      else [CpReflinkArgv(PathJoin(Syslinux, SyslinuxImages[0]), tftpdir), CpReflinkArgv(PathJoin(Syslinux, SyslinuxImages[1]), tftpdir)]
    case Grub =>
      if pxe.pxeimagepath != "" then [MknetdirArgv(tftpdir), CpReflinkArgv(pxe.pxeimagepath, PathJoin(tftpdir, "boot/grub2"))]
      else [MknetdirArgv(tftpdir)]
  }

  lemma AppendThree(log: seq<string>, a: seq<string>, b: seq<string>, c: seq<string>)
    ensures log + a + b + c == log + (a + b + c)
  {
  }

  /** Two commands logged one after the other. */
  lemma LogTwo(log: seq<seq<string>>, first: seq<string>, second: seq<string>)
    ensures log + [first] + [second] == log + [first, second]
  {
  }

  /** The boot parameters after completePxeSetup: the `pxe` boot type gets its boot file. */
  function Completed(pxe: PxeSetup): (done: PxeSetup)
    ensures done.boottype == pxe.boottype && done.bootindex == pxe.bootindex
    ensures done.networkdevice == pxe.networkdevice && done.tftpipaddr == pxe.tftpipaddr
    ensures done.bootfile != "" <==> pxe.bootfile != "" || pxe.boottype == Pxe
  {
    if pxe.boottype == Pxe then pxe.(bootfile := "/pxelinux.0") else pxe
  }

  /** Once completePxeSetup has run, every architecture's boot parameters name a boot file. */
  lemma CompletedHasBootfile(arch: string, firmware: string)
    requires ArchPxeSetup(arch, firmware).Ok?
    ensures Completed(ArchPxeSetup(arch, firmware).value).bootfile != ""
  {
  }

  /** The boot files completePxeSetup creates lie below the temp directory. */
  lemma BootFilesStayOwned(d0: set<string>, f0: map<string, FileContent>, dirs: set<string>, files: map<string, FileContent>,
                           dirs': set<string>, files': map<string, FileContent>, root: string, boottype: BootType, text: FileContent)
    requires Owned(d0, f0, dirs, files, root)
    requires dirs' == dirs || dirs' == dirs + {PxeConfigDir(PathJoin(root, "tftp"))}
    requires files' == files || files' == files[BootConfigPath(boottype, PathJoin(root, "tftp")) := text]
    ensures Owned(d0, f0, dirs', files', root)
  {
    var tftpdir := PathJoin(root, "tftp");
    UnderTftp(root, "pxelinux.cfg");
    UnderTftp(root, "boot/grub2/grub.cfg");
    UnderJoin(PxeConfigDir(tftpdir), "default");
    UnderTrans(BootConfigPath(Pxe, tftpdir), PxeConfigDir(tftpdir), root);
    OwnedMkdir(d0, f0, dirs, files, root, PxeConfigDir(tftpdir));
    if files' != files {
      OwnedWrite(d0, f0, dirs', files, root, BootConfigPath(boottype, tftpdir), text);
    }
  }

  // ---------------------------------------------------------------- the installer run

  /** installerRun: one PXE install in progress. `root` is the temp directory it was created
    * with; `tempdir` is cleared when ownership passes to the InstalledMachine. */
  class InstallerRun {
    const inst: Install
    const builder: Builder
    const builddir: string
    ghost const root: string
    var tempdir: string
    const tftpdir: string
    const metalimg: string
    const metalname: string
    const baseurl: string
    const kern: KernelSetup
    var pxe: PxeSetup

    ghost predicate Valid()
      reads this
    {
      root != "" && tftpdir == PathJoin(root, "tftp") && (tempdir == "" || tempdir == root) && builder == inst.builder
    }

    constructor (inst: Install, root: string, builddir: string, metalimg: string, baseurl: string,
                 kern: KernelSetup, pxe: PxeSetup)
      requires root != ""
      ensures this.inst == inst && this.builder == inst.builder && this.root == root && tempdir == root
      ensures tftpdir == PathJoin(root, "tftp") && this.builddir == builddir && this.metalimg == metalimg
      ensures metalname == metalimg && this.baseurl == baseurl && this.kern == kern && this.pxe == pxe
      ensures Valid()
    {
      this.inst := inst;
      this.builder := inst.builder;
      this.root := root;
      this.tempdir := root;
      this.tftpdir := PathJoin(root, "tftp");
      this.builddir := builddir;
      this.metalimg := metalimg;
      this.metalname := metalimg;
      this.baseurl := baseurl;
      this.kern := kern;
      this.pxe := pxe;
    }

    /** installerRun.destroy: closes the builder and removes the temp directory if still owned. */
    method Destroy(host: Host)
      modifies builder, host
      ensures builder.closed && builder.args == old(builder.args) && builder.channels == old(builder.channels)
      ensures builder.config == old(builder.config) && builder.isos == old(builder.isos)
      ensures tempdir != "" ==> host.dirs == KeepDirs(old(host.dirs), tempdir) && host.files == KeepFiles(old(host.files), tempdir)
      ensures tempdir == "" ==> host.dirs == old(host.dirs) && host.files == old(host.files)
      ensures host.commands == old(host.commands)
    {
      builder.Close();
      if tempdir != "" {
        host.RemoveAll(tempdir);
      }
    }

    /** completePxeSetup: writes the boot loader configuration for the kernel arguments (plus
      * the rootfs URL when the rootfs is fetched separately), provides the boot loader images
      * and, for the `pxe` boot type, sets the boot file. */
    method CompletePxeSetup(kargs: seq<string>, host: Host, env: Env, ghost d0: set<string>, ghost f0: map<string, FileContent>)
      returns (err: Option<string>)
      requires Valid() && Owned(d0, f0, host.dirs, host.files, root)
      modifies this, host
      ensures Valid() && tempdir == old(tempdir) && Owned(d0, f0, host.dirs, host.files, root)
      ensures err.Some? ==> pxe == old(pxe)
      ensures err.None? ==> pxe == Completed(old(pxe))
      ensures err.None? ==> host.files == old(host.files)[BootConfigPath(old(pxe).boottype, tftpdir) :=
        BootConfig(old(pxe).boottype, env.arch, kern.kernel, kern.initramfs,
          Join(kargs + RootfsKargs(baseurl, kern.rootfs, inst.pxeAppendRootfs), " "))]
      ensures err.None? ==> host.commands == old(host.commands) + BootCommands(old(pxe), tftpdir, kern)
    {
      var kargsStr := Join(kargs + RootfsKargs(baseurl, kern.rootfs, inst.pxeAppendRootfs), " ");
      err := WriteBootFiles(kargsStr, host, env, d0, f0);
      if err.None? && pxe.boottype == Pxe {
        pxe := pxe.(bootfile := "/pxelinux.0");
      }
    }

    /** The boot-type switch of completePxeSetup: everything it writes and runs. */
    method WriteBootFiles(kargsStr: string, host: Host, env: Env, ghost d0: set<string>, ghost f0: map<string, FileContent>)
      returns (err: Option<string>)
      requires Valid() && Owned(d0, f0, host.dirs, host.files, root)
      modifies host
      ensures Owned(d0, f0, host.dirs, host.files, root)
      ensures err.None? ==> host.files == old(host.files)[BootConfigPath(pxe.boottype, tftpdir) :=
        BootConfig(pxe.boottype, env.arch, kern.kernel, kern.initramfs, kargsStr)]
      ensures err.None? ==> host.commands == old(host.commands) + BootCommands(pxe, tftpdir, kern)
    {
      match pxe.boottype {
        case Pxe =>
          err := WritePxelinuxFiles(kargsStr, host, env);
        case Grub =>
          err := WriteGrubFiles(kargsStr, host, env);
      }
      BootFilesStayOwned(d0, f0, old(host.dirs), old(host.files), host.dirs, host.files, root, pxe.boottype,
        BootConfig(pxe.boottype, env.arch, kern.kernel, kern.initramfs, kargsStr));
    }

    /** The `pxe` branch of completePxeSetup, up to setting the boot file. */
    method WritePxelinuxFiles(kargsStr: string, host: Host, env: Env) returns (err: Option<string>)
      requires pxe.boottype == Pxe
      modifies host
      ensures host.dirs == old(host.dirs) || host.dirs == old(host.dirs) + {PxeConfigDir(tftpdir)}
      ensures host.files == old(host.files) || host.files == old(host.files)[BootConfigPath(Pxe, tftpdir) :=
        BootConfig(Pxe, env.arch, kern.kernel, kern.initramfs, kargsStr)]
      ensures err.None? ==> host.files == old(host.files)[BootConfigPath(Pxe, tftpdir) :=
        BootConfig(Pxe, env.arch, kern.kernel, kern.initramfs, kargsStr)]
      ensures err.None? ==> host.commands == old(host.commands) + BootCommands(pxe, tftpdir, kern)
    {
      var pxeconfigdir := PxeConfigDir(tftpdir);
      if Op.Mkdir(pxeconfigdir) in env.failing {
        return Some(Wrap("creating dir " + pxeconfigdir, env.failing[Op.Mkdir(pxeconfigdir)]));
      }
      host.Mkdir(pxeconfigdir);
      var configPath := BootConfigPath(Pxe, tftpdir);
      err := host.TryWrite(configPath, BootConfig(Pxe, env.arch, kern.kernel, kern.initramfs, kargsStr), env);
      if err.Some? {
        return Some(Wrap("writing file " + configPath, err.value));
      }
      if pxe.pxeimagepath == "" {
        err := host.Exec(MkS390ImageArgv(tftpdir, kern), env);
        if err.Some? {
          return Some(Wrap("running mk-s390image", err.value));
        }
      } else {
        ghost var cmds := BootCommands(pxe, tftpdir, kern);
        var i := 0;
        while i < |SyslinuxImages|
          invariant 0 <= i <= |SyslinuxImages|
          invariant host.dirs == old(host.dirs) + {pxeconfigdir}
          invariant host.files == old(host.files)[configPath := BootConfig(Pxe, env.arch, kern.kernel, kern.initramfs, kargsStr)]
          invariant host.commands == old(host.commands) + cmds[..i]
        {
          var srcpath := PathJoin(Syslinux, SyslinuxImages[i]);
          assert cmds[..i + 1] == cmds[..i] + [CpReflinkArgv(srcpath, tftpdir)];
          err := host.Exec(CpReflinkArgv(srcpath, tftpdir), env);
          if err.Some? {
            return Some(Wrap("running cp-reflink " + srcpath + " " + tftpdir, err.value));
          }
          i := i + 1;
        }
        assert cmds[..2] == cmds;
      }
    }

    /** The `grub` branch of completePxeSetup. */
    method WriteGrubFiles(kargsStr: string, host: Host, env: Env) returns (err: Option<string>)
      requires pxe.boottype == Grub
      modifies host
      ensures host.dirs == old(host.dirs)
      ensures host.files == old(host.files) || host.files == old(host.files)[BootConfigPath(Grub, tftpdir) :=
        BootConfig(Grub, env.arch, kern.kernel, kern.initramfs, kargsStr)]
      ensures err.None? ==> host.files == old(host.files)[BootConfigPath(Grub, tftpdir) :=
        BootConfig(Grub, env.arch, kern.kernel, kern.initramfs, kargsStr)]
      ensures err.None? ==> host.commands == old(host.commands) + BootCommands(pxe, tftpdir, kern)
    {
      var mknetdir := MknetdirArgv(tftpdir);
      err := host.Exec(mknetdir, env);
      if err.Some? {
        return Some(Wrap("running grub2-mknetdir", err.value));
      }
      ghost var logged := host.commands;
      if pxe.pxeimagepath != "" {
        var dstpath := PathJoin(tftpdir, "boot/grub2");
        var cp := CpReflinkArgv(pxe.pxeimagepath, dstpath);
        err := host.Exec(cp, env);
        if err.Some? {
          return Some(Wrap("running cp-reflink " + pxe.pxeimagepath + " " + dstpath, err.value));
        }
        assert host.commands == old(host.commands) + [mknetdir] + [cp];
        LogTwo(old(host.commands), mknetdir, cp);
        assert host.commands == old(host.commands) + [mknetdir, cp];
        assert BootCommands(pxe, tftpdir, kern) == [mknetdir, cp];
      }
      var cfgPath := BootConfigPath(Grub, tftpdir);
      err := host.TryWrite(cfgPath, BootConfig(Grub, env.arch, kern.kernel, kern.initramfs, kargsStr), env);
      if err.Some? {
        return Some(Wrap("writing grub.cfg", err.value));
      }
    }

    /** installerRun.run: appends the network arguments and starts QEMU. */
    method Run(env: Env) returns (r: Result<QemuInstance, string>)
      modifies builder
      ensures builder.args == old(builder.args) + NetArgs(pxe, tftpdir)
      ensures builder.closed == old(builder.closed) && builder.channels == old(builder.channels)
      ensures builder.config == old(builder.config) && builder.isos == old(builder.isos)
      ensures builder.usermodeNetworking == old(builder.usermodeNetworking)
      ensures r.Err? <==> Op.Exec in env.failing
      ensures r.Err? ==> r.error == env.failing[Op.Exec]
      ensures r.Ok? ==> fresh(r.value) && r.value.destroyCount == 0
    {
      AppendNetArgs();
      r := builder.Exec(env);
    }

    /** The network arguments installerRun.run appends before starting QEMU. */
    method AppendNetArgs()
      modifies builder
      ensures builder.args == old(builder.args) + NetArgs(pxe, tftpdir)
      ensures builder.closed == old(builder.closed) && builder.channels == old(builder.channels)
      ensures builder.config == old(builder.config) && builder.isos == old(builder.isos)
      ensures builder.usermodeNetworking == old(builder.usermodeNetworking)
    {
      ghost var boot: seq<string> := if pxe.bootindex == "" then ["-boot", "once=n"] else [];
      var netdev := NetdevBase(pxe);
      if pxe.bootindex == "" {
        builder.Append(["-boot", "once=n"]);
      } else {
        netdev := netdev + ",bootindex=" + pxe.bootindex;
      }
      builder.Append(["-device", netdev]);
      var usernetdev := UserNetdevBase(pxe, tftpdir);
      if pxe.tftpipaddr != DefaultQemuHostIPv4 {
        usernetdev := usernetdev + AltSubnet;
      }
      builder.Append(["-netdev", usernetdev]);
      assert netdev == NetdevArg(pxe) && usernetdev == UserNetdevArg(pxe, tftpdir);
      assert builder.args == old(builder.args) + boot + ["-device", netdev] + ["-netdev", usernetdev];
      AppendThree(old(builder.args), boot, ["-device", netdev], ["-netdev", usernetdev]);
      assert NetArgs(pxe, tftpdir) == boot + ["-device", netdev] + ["-netdev", usernetdev];
    }
  }

  // ---------------------------------------------------------------- the ISO install

  /** `flag value` for each value in order, as the source builds `--keyfile path` and
    * `--append karg` argument lists. */
  function Flagged(flag: string, values: seq<string>): (args: seq<string>)
    ensures |args| == 2 * |values|
  {
    if values == [] then []
    else Flagged(flag, values[..|values| - 1]) + [flag, values[|values| - 1]]
  }

  /** Every second word of an argument list: the values of a flag list. */
  function Unflagged(args: seq<string>): seq<string>
  {
    if |args| < 2 then []
    else Unflagged(args[..|args| - 2]) + [args[|args| - 1]]
  }

  /** The values can be read back from the argument list. */
  lemma {:induction false} UnflaggedFlagged(flag: string, values: seq<string>)
    ensures Unflagged(Flagged(flag, values)) == values
  {
    if values != [] {
      var init := values[..|values| - 1];
      var args := Flagged(flag, values);
      assert args[..|args| - 2] == Flagged(flag, init);
      UnflaggedFlagged(flag, init);
    }
  }

  /** Each value sits right after its own copy of the flag. */
  lemma {:induction false} FlaggedAt(flag: string, values: seq<string>, i: int)
    requires 0 <= i < |values|
    ensures Flagged(flag, values)[2 * i] == flag && Flagged(flag, values)[2 * i + 1] == values[i]
  {
    var init := values[..|values| - 1];
    if i < |values| - 1 {
      FlaggedAt(flag, init, i);
    }
  }

  /** The source's `for _, v := range values { args = append(args, flag, v) }`. */
  method AppendFlags(args: seq<string>, flag: string, values: seq<string>) returns (out: seq<string>)
    ensures out == args + Flagged(flag, values)
  {
    out := args;
    for i := 0 to |values|
      invariant out == args + Flagged(flag, values[..i])
    {
      assert values[..i + 1][..i] == values[..i];
      out := out + [flag, values[i]];
    }
    assert values[..|values|] == values;
  }

  const IsoInstaller: string := "coreos-installer"
  const MinimalOfflinePanic: string := "Can't run minimal install offline"
  const KeyfileOfflineError: string := "Cannot use `--add-nm-keyfile` with offline mode"

  /** The artifacts InstallViaISOEmbed checks for. */
  function IsoArtifacts(native4k: bool): seq<string> {
    ["live-iso", MetalArtifact(native4k)]
  }

  /** The URL of the HTTP server a networked ISO install starts, as the guest sees it. */
  function IsoBaseurl(port: nat): string {
    Baseurl(DefaultQemuHostIPv4, port)
  }

  function CopyIsoArgv(src: string, dst: string): seq<string> {
    ["cp", "--reflink=auto", src, dst]
  }

  function ExtractMinimalArgv(iso: string, tempdir: string, baseurl: string): seq<string> {
    [IsoInstaller, "iso", "extract", "minimal-iso", iso, PathJoin(tempdir, "minimal.iso"),
     "--output-rootfs", PathJoin(tempdir, "rootfs.img"), "--rootfs-url", baseurl + "/rootfs.img"]
  }

  function NetworkEmbedArgv(iso: string, keyfiles: seq<string>): seq<string> {
    [IsoInstaller, "iso", "network", "embed", iso] + Flagged("--keyfile", keyfiles)
  }

  function KargsModifyArgv(iso: string, kargs: seq<string>): seq<string> {
    [IsoInstaller, "iso", "kargs", "modify", iso] + Flagged("--append", kargs)
  }

  /** Where the keyfiles named in `names` are written. */
  function KeyfilePaths(tempdir: string, names: seq<string>): (paths: seq<string>)
    ensures |paths| == |names|
    ensures forall i :: 0 <= i < |names| ==> paths[i] == PathJoin(tempdir, names[i])
  {
    seq(|names|, i requires 0 <= i < |names| => PathJoin(tempdir, names[i]))
  }

  /** The keyfiles written for `names`, each under the temp directory with its contents. */
  function KeyfileFiles(tempdir: string, names: seq<string>, keyfiles: map<string, string>): map<string, FileContent>
    requires forall n :: n in names ==> n in keyfiles
  {
    if names == [] then map[]
    else
      var last := names[|names| - 1];
      KeyfileFiles(tempdir, names[..|names| - 1], keyfiles)[PathJoin(tempdir, last) := Text(keyfiles[last])]
  }

  /** The written files are exactly the named keyfiles, and each holds its own contents. */
  lemma {:induction false} KeyfileFilesHold(tempdir: string, names: seq<string>, keyfiles: map<string, string>)
    requires forall n :: n in names ==> n in keyfiles
    ensures forall p :: p in KeyfileFiles(tempdir, names, keyfiles) <==> exists n :: n in names && p == PathJoin(tempdir, n)
    ensures forall n :: n in names ==> KeyfileFiles(tempdir, names, keyfiles)[PathJoin(tempdir, n)] == Text(keyfiles[n])
  {
    if names != [] {
      var init := names[..|names| - 1];
      var last := names[|names| - 1];
      KeyfileFilesHold(tempdir, init, keyfiles);
      forall n | n in names
        ensures KeyfileFiles(tempdir, names, keyfiles)[PathJoin(tempdir, n)] == Text(keyfiles[n])
      {
        if PathJoin(tempdir, n) == PathJoin(tempdir, last) {
          assert n == PathJoin(tempdir, n)[|tempdir| + 1..] == last;
        } else {
          assert n in init;
        }
      }
      forall p | p in KeyfileFiles(tempdir, names, keyfiles)
        ensures exists n :: n in names && p == PathJoin(tempdir, n)
      {
        if p != PathJoin(tempdir, last) {
          assert p in KeyfileFiles(tempdir, init, keyfiles);
          var n :| n in init && p == PathJoin(tempdir, n);
          assert n in names;
        }
      }
      forall p | exists n :: n in names && p == PathJoin(tempdir, n)
        ensures p in KeyfileFiles(tempdir, names, keyfiles)
      {
        var n :| n in names && p == PathJoin(tempdir, n);
        if n != last {
          assert n in init;
        }
      }
    }
  }

  /** Each keyfile path lies below the temp directory. */
  lemma KeyfileFilesOwned(d0: set<string>, f0: map<string, FileContent>, dirs: set<string>, files: map<string, FileContent>,
                          tempdir: string, names: seq<string>, keyfiles: map<string, string>)
    requires forall n :: n in names ==> n in keyfiles
    requires Owned(d0, f0, dirs, files, tempdir)
    ensures Owned(d0, f0, dirs, files + KeyfileFiles(tempdir, names, keyfiles), tempdir)
  {
    KeyfileFilesHold(tempdir, names, keyfiles);
    forall n | n in names
      ensures Under(PathJoin(tempdir, n), tempdir)
    {
      UnderJoin(tempdir, n);
    }
  }

  /** `order` enumerates the keyfile names once each, in the order Go's map iteration picked. */
  predicate KeyfileOrder(order: seq<string>, keyfiles: map<string, string>) {
    |order| == |keyfiles| && (forall n :: n in order ==> n in keyfiles) && (forall n :: n in keyfiles ==> n in order)
  }

  /** The external commands a successful ISO install runs, in order. */
  function IsoCommands(src: string, tempdir: string, offline: bool, minimal: bool, port: nat,
                       keyfiles: seq<string>, kargs: seq<string>): seq<seq<string>>
  {
    var copied := PathJoin(tempdir, "install.iso");
    var iso := FinalIso(tempdir, offline, minimal);
    [CopyIsoArgv(src, copied)]
    + (if !offline && minimal then [ExtractMinimalArgv(copied, tempdir, IsoBaseurl(port))] else [])
    + (if keyfiles != [] then [NetworkEmbedArgv(iso, keyfiles)] else [])
    + (if kargs != [] then [KargsModifyArgv(iso, kargs)] else [])
  }

  /** The ISO the VM boots: the copy of the live ISO, or the minimal ISO extracted from it. */
  function FinalIso(tempdir: string, offline: bool, minimal: bool): string {
    if !offline && minimal then PathJoin(tempdir, "minimal.iso") else PathJoin(tempdir, "install.iso")
  }

  /** The target config the live system installs: embedded when offline, otherwise a pointer
    * config that fetches it from the HTTP server. */
  function IsoPayload(offline: bool, port: nat): Payload {
    if offline then Embedded else Pointer(IsoBaseurl(port) + "/target.ign")
  }

  /** The kernel arguments an ISO install applies to the ISO. */
  function IsoKargs(debug: bool, kargs: seq<string>, haveKeyfiles: bool): (all: seq<string>)
    ensures |all| == |RenderDebugKargs(debug)| + |kargs| + (if haveKeyfiles then 1 else 0)
    ensures all[..|RenderDebugKargs(debug)|] == RenderDebugKargs(debug)
    ensures haveKeyfiles ==> all[|all| - 1] == "rd.neednet=1"
  {
    RenderDebugKargs(debug) + kargs + (if haveKeyfiles then ["rd.neednet=1"] else [])
  }

  function AddDropin(c: LiveConfig, unit: string, name: string): LiveConfig {
    c.(dropins := c.dropins + [(unit, name)])
  }

  /** What InstallViaISOEmbed adds to the live config: the boot-started unit, the target config
    * at the pointer path, the installer directive, autologin and, for a multipath disk, the
    * multipath unit and the installer's drop-in that waits for the device. */
  function IsoLiveConfig(c: LiveConfig, payload: Payload, directive: InstallerConfig, multipath: bool): (r: LiveConfig)
    ensures r.files == c.files + [(PointerIgnitionPath, Target(payload)), (DirectivePath, Directive(directive))]
    ensures |r.units| == |c.units| + (if multipath then 2 else 1) && r.autoLogin
    ensures r.units[..|c.units|] == c.units && r.units[|c.units|] == BootStartedUnit
    ensures |r.dropins| == |c.dropins| + (if multipath then 1 else 0)
  {
    var base := AddFile(AddFile(AddUnit(c, BootStartedUnit), PointerIgnitionPath, Target(payload)),
                        DirectivePath, Directive(directive)).(autoLogin := true);
    if multipath then AddDropin(AddUnit(base, MultipathUnit), InstallerUnit, MultipathDropin)
    else base
  }

  lemma UnionUpdate(a: map<string, FileContent>, b: map<string, FileContent>, k: string, v: FileContent)
    ensures a + b[k := v] == (a + b)[k := v]
  {
  }

  /** A log that grew by four stretches, one after the other. */
  lemma LogFour(c0: seq<seq<string>>, c1: seq<seq<string>>, c2: seq<seq<string>>, c3: seq<seq<string>>, c4: seq<seq<string>>)
    requires c0 <= c1 <= c2 <= c3 <= c4
    ensures c4 == c0 + c1[|c0|..] + c2[|c1|..] + c3[|c2|..] + c4[|c3|..]
  {
    assert c1 == c0 + c1[|c0|..];
    assert c2 == c1 + c2[|c1|..];
    assert c3 == c2 + c3[|c2|..];
    assert c4 == c3 + c4[|c3|..];
  }

  /** Owned is about directories and files only. */
  lemma KeepOwned(d0: set<string>, f0: map<string, FileContent>, dirs: set<string>, files: map<string, FileContent>,
                  dirs': set<string>, files': map<string, FileContent>, root: string)
    requires Owned(d0, f0, dirs, files, root) && dirs' == dirs && files' == files
    ensures Owned(d0, f0, dirs', files', root)
  {
  }

  /** The commands of an ISO install are those of staging and serving, then the keyfile
    * embedding, then the kernel argument change. */
  lemma IsoCommandsSplit(c0: seq<seq<string>>, c1: seq<seq<string>>, c2: seq<seq<string>>, c3: seq<seq<string>>,
                         src: string, tempdir: string, offline: bool, minimal: bool, port: nat,
                         keyfiles: seq<string>, kargs: seq<string>)
    requires c1 == c0 + IsoCommands(src, tempdir, offline, minimal, port, [], [])
    requires c2 == c1 + (if keyfiles == [] then [] else [NetworkEmbedArgv(FinalIso(tempdir, offline, minimal), keyfiles)])
    requires c3 == c2 + (if kargs == [] then [] else [KargsModifyArgv(FinalIso(tempdir, offline, minimal), kargs)])
    ensures c3 == c0 + IsoCommands(src, tempdir, offline, minimal, port, keyfiles, kargs)
  {
  }

  /** What a flow returns: a machine, an error, or a panic. */
  datatype Outcome = Installed(machine: InstalledMachine) | Failed(err: string) | Panicked(msg: string)

  const NilDereference: string := "runtime error: invalid memory address or nil pointer dereference"

  /** The artifacts Install.PXE checks for. */
  const LiveArtifacts: seq<string> := ["live-kernel", "live-rootfs"]

  /** The build records the live kernel, initramfs and rootfs. */
  predicate LiveKernelKnown(build: Build) {
    "live-kernel" in build.artifacts && "live-initramfs" in build.artifacts && "live-rootfs" in build.artifacts
  }

  function LiveKernel(build: Build): KernelSetup
    requires LiveKernelKnown(build)
  {
    KernelSetup(build.artifacts["live-kernel"], build.artifacts["live-initramfs"], build.artifacts["live-rootfs"])
  }

  /** Install: the build, the QEMU builder and the install options, with the kernel arguments and
    * live config the flows set. */
  class Install {
    const build: Build
    const builder: Builder
    const native4k: bool
    const pxeAppendRootfs: bool
    const insecure: bool
    const multipathDisk: bool
    const nmKeyfiles: map<string, string>
    var kargs: seq<string>
    var live: LiveConfig

    constructor (build: Build, builder: Builder, native4k: bool, pxeAppendRootfs: bool, insecure: bool,
                 multipathDisk: bool, nmKeyfiles: map<string, string>)
      ensures this.build == build && this.builder == builder && this.native4k == native4k
      ensures this.pxeAppendRootfs == pxeAppendRootfs && this.insecure == insecure
      ensures this.multipathDisk == multipathDisk && this.nmKeyfiles == nmKeyfiles
      ensures kargs == [] && live == LiveConfig([], [], [], false)
    {
      this.build := build;
      this.builder := builder;
      this.native4k := native4k;
      this.pxeAppendRootfs := pxeAppendRootfs;
      this.insecure := insecure;
      this.multipathDisk := multipathDisk;
      this.nmKeyfiles := nmKeyfiles;
      kargs := [];
      live := LiveConfig([], [], [], false);
    }

    /** Install.setup: checks the metal artifact, creates the temp and TFTP directories, writes
      * the configs, links the boot artifacts, picks the architecture's boot parameters and starts
      * the HTTP server. Any failure after the temp directory exists removes it. */
    method Setup(kern: KernelSetup, host: Host, env: Env) returns (r: Result<InstallerRun, string>)
      requires env.tempName != "" && host.Fresh(env.tempName)
      modifies this, host
      ensures host.commands == old(host.commands)
      ensures r.Err? ==> host.dirs == old(host.dirs) && host.files == old(host.files)
      ensures ArtifactsError(build, [MetalArtifact(native4k)]).Some? ==> r == Err(ArtifactsError(build, [MetalArtifact(native4k)]).value)
      ensures ArchPxeSetup(env.arch, builder.firmware).Err? ==> r.Err?
      ensures r.Ok? ==> ArtifactPresent(build, MetalArtifact(native4k)) && ArchPxeSetup(env.arch, builder.firmware).Ok?
      ensures r.Ok? ==> (fresh(r.value) && r.value.Valid() && r.value.inst == this && r.value.root == env.tempName
        && r.value.tempdir == env.tempName && r.value.kern == kern
        && r.value.pxe == ArchPxeSetup(env.arch, builder.firmware).value
        && r.value.baseurl == Baseurl(r.value.pxe.tftpipaddr, env.port)
        && r.value.metalname == build.artifacts[MetalArtifact(native4k)])
      ensures r.Ok? ==> host.dirs == old(host.dirs) + {env.tempName, PathJoin(env.tempName, "tftp")} && host.files == old(host.files)
      ensures r.Ok? ==> Owned(old(host.dirs), old(host.files), host.dirs, host.files, env.tempName)
      ensures r.Ok? ==> live == WithBootStarted(old(live))
      ensures live.files == old(live.files) && kargs == old(kargs)
    {
      var err := CheckArtifactsExist(build, [MetalArtifact(native4k)]);
      if err.Some? {
        return Err(err.value);
      }
      if MkdirTemp in env.failing {
        return Err(env.failing[MkdirTemp]);
      }
      var tempdir := env.tempName;
      host.Mkdir(tempdir);
      err := PopulateTftp(kern, tempdir, host, env);
      var pxe := ArchPxeSetup(env.arch, builder.firmware);
      if err.None? && pxe.Err? {
        err := Some(pxe.error);
      }
      if err.None? && Listen in env.failing {
        err := Some(env.failing[Listen]);
      }
      var tftpdir := PathJoin(tempdir, "tftp");
      UnderJoin(tempdir, "tftp");
      assert Owned(old(host.dirs), old(host.files), old(host.dirs) + {tempdir}, host.files, tempdir);
      if host.dirs != old(host.dirs) + {tempdir} {
        OwnedMkdir(old(host.dirs), old(host.files), old(host.dirs) + {tempdir}, host.files, tempdir, tftpdir);
      }
      if err.Some? {
        CleanupTempdir(host, tempdir, old(host.dirs), old(host.files));
        return Err(err.value);
      }
      var baseurl := Baseurl(pxe.value.tftpipaddr, env.port);
      var t := new InstallerRun(this, tempdir, build.dir, build.artifacts[MetalArtifact(native4k)], baseurl, kern, pxe.value);
      return Ok(t);
    }

    /** The steps of setup between creating the temp directory and choosing the boot
      * parameters: the TFTP directory, the two Ignition configs, the kernel, initramfs and
      * rootfs links (the initramfs replaced by initramfs plus rootfs when the rootfs is
      * appended) and the metal image link. */
    method PopulateTftp(kern: KernelSetup, tempdir: string, host: Host, env: Env) returns (err: Option<string>)
      requires ArtifactPresent(build, MetalArtifact(native4k))
      modifies this, host
      ensures host.files == old(host.files) && host.commands == old(host.commands)
      ensures host.dirs == old(host.dirs) || host.dirs == old(host.dirs) + {PathJoin(tempdir, "tftp")}
      ensures err.None? ==> host.dirs == old(host.dirs) + {PathJoin(tempdir, "tftp")}
      ensures err.None? ==> live == WithBootStarted(old(live))
      ensures live.files == old(live.files) && kargs == old(kargs)
    {
      var tftpdir := PathJoin(tempdir, "tftp");
      if Op.Mkdir(tftpdir) in env.failing {
        return Some(env.failing[Op.Mkdir(tftpdir)]);
      }
      host.Mkdir(tftpdir);
      err := RunSteps([WriteConfig(PathJoin(tftpdir, "config.ign"))], env);
      if err.Some? {
        return err;
      }
      live := WithBootStarted(live);
      err := RunSteps([WriteConfig(PathJoin(tftpdir, "pxe-live.ign"))], env);
      if err.Some? {
        return err;
      }
      err := RunSteps([Symlink(PathJoin(tftpdir, kern.kernel)), Symlink(PathJoin(tftpdir, kern.initramfs)),
                       Symlink(PathJoin(tftpdir, kern.rootfs))], env);
      if err.Some? {
        return err;
      }
      if pxeAppendRootfs {
        var initrd := PathJoin(tftpdir, kern.initramfs);
        err := RunSteps([Remove(initrd), Cat(initrd)], env);
        if err.Some? {
          return err;
        }
      }
      var metalimg := build.artifacts[MetalArtifact(native4k)];
      if Symlink(PathJoin(tftpdir, metalimg)) in env.failing {
        return Some(Wrap("setting up metal image", env.failing[Symlink(PathJoin(tftpdir, metalimg))]));
      }
    }

    /** The contexts runPXE and Install.PXE wrap their errors with. */
    const SetupContext: string := "setting up install"
    const LiveInstallerContext: string := "testing live installer"

    /** Install.PXE: checks the live artifacts, embeds the installer directive in the live
      * config (except on s390x), prefixes the debug kernel arguments and runs the PXE install.
      * The live initramfs is read through a pointer the artifact check does not cover, so a
      * build without one panics. */
    method Pxe(kargs: seq<string>, offline: bool, host: Host, env: Env) returns (o: Outcome)
      requires env.tempName != "" && host.Fresh(env.tempName)
      modifies this, host, builder
      ensures ArtifactsError(build, LiveArtifacts).Some? ==> o == Failed(ArtifactsError(build, LiveArtifacts).value)
      ensures ArtifactsError(build, LiveArtifacts).Some? ==> live == old(live) && this.kargs == old(this.kargs)
      ensures ArtifactsError(build, LiveArtifacts).None? ==> this.kargs == RenderDebugKargs(env.debug) + kargs
      ensures ArtifactsError(build, LiveArtifacts).None? ==> (live.files == old(live.files) +
        (if env.arch == "s390x" then [] else [(DirectivePath, Directive(PxeInstallerConfig(env.arch, env.debug).value))]))
      ensures ArtifactsError(build, LiveArtifacts).None? && !LiveKernelKnown(build) ==> o == Panicked(NilDereference)
      ensures !o.Installed? ==> host.dirs == old(host.dirs) && host.files == old(host.files)
      ensures o.Installed? ==> ArtifactsError(build, LiveArtifacts).None? && LiveKernelKnown(build)
      ensures o.Installed? ==> PxeInstalled(o.machine, env, offline, old(host.files), host.files, LiveKernel(build))
      ensures o.Installed? ==> fresh(o.machine) && fresh(o.machine.qemuInst) && o.machine.qemuInst.destroyCount == 0
      ensures (ArtifactsError(build, LiveArtifacts).None? && LiveKernelKnown(build) && o.Failed?
        ==> exists e :: o.err == Wrap(LiveInstallerContext, e))
      ensures (ArtifactsError(build, LiveArtifacts).None? && LiveKernelKnown(build)
        && ArtifactsError(build, [MetalArtifact(native4k)]).Some?
        ==> o == Failed(Wrap(LiveInstallerContext, Wrap(SetupContext, ArtifactsError(build, [MetalArtifact(native4k)]).value))))
    {
      var err := CheckArtifactsExist(build, LiveArtifacts);
      if err.Some? {
        return Failed(err.value);
      }
      var directive := PxeInstallerConfig(env.arch, env.debug);
      if directive.Some? {
        live := AddFile(live, DirectivePath, Directive(directive.value));
      }
      this.kargs := RenderDebugKargs(env.debug) + kargs;
      if !LiveKernelKnown(build) {
        return Panicked(NilDereference);
      }
      o := RunLive(LiveKernel(build), offline, host, env);
    }

    /** The end of Install.PXE: runPXE on the live kernel, its error wrapped. */
    method RunLive(kern: KernelSetup, offline: bool, host: Host, env: Env) returns (o: Outcome)
      requires env.tempName != "" && host.Fresh(env.tempName)
      modifies this, host, builder
      ensures live.files == old(live.files) && kargs == old(kargs)
      ensures !o.Installed? ==> host.dirs == old(host.dirs) && host.files == old(host.files)
      ensures o.Failed? || o.Installed?
      ensures o.Failed? ==> exists e :: o.err == Wrap(LiveInstallerContext, e)
      ensures (ArtifactsError(build, [MetalArtifact(native4k)]).Some?
        ==> o == Failed(Wrap(LiveInstallerContext, Wrap(SetupContext, ArtifactsError(build, [MetalArtifact(native4k)]).value))))
      ensures o.Installed? ==> PxeInstalled(o.machine, env, offline, old(host.files), host.files, kern)
      ensures o.Installed? ==> fresh(o.machine) && fresh(o.machine.qemuInst) && o.machine.qemuInst.destroyCount == 0
    {
      var r := RunPxe(kern, offline, host, env);
      if r.Err? {
        return Failed(Wrap(LiveInstallerContext, r.error));
      }
      return Installed(r.value);
    }

    /** A finished PXE install: the machine owns the temp directory and runs QEMU, and the
      * TFTP directory holds the boot configuration for the architecture's boot parameters with
      * the kernel arguments in their documented order. */
    ghost predicate PxeInstalled(m: InstalledMachine, env: Env, offline: bool, files0: map<string, FileContent>,
                                 files: map<string, FileContent>, kern: KernelSetup)
      reads this, builder, m
    {
      && ArchPxeSetup(env.arch, builder.firmware).Ok? && ArtifactPresent(build, MetalArtifact(native4k))
      && m.tempdir == env.tempName && m.qemuInst != null && m.bootWatched && builder.closed
      && var pxe := ArchPxeSetup(env.arch, builder.firmware).value;
         files == files0[BootConfigPath(pxe.boottype, PathJoin(env.tempName, "tftp")) :=
           BootConfig(pxe.boottype, env.arch, kern.kernel, kern.initramfs,
             Join(PxeKargs(env.arch, kargs, Baseurl(pxe.tftpipaddr, env.port), build.artifacts[MetalArtifact(native4k)],
                           offline, insecure, kern.rootfs, pxeAppendRootfs), " "))]
    }

    /** InstallViaISOEmbed: checks the artifacts and the mode (a minimal offline install
      * panics; keyfiles need the network), both before any temp directory exists; builds the
      * installer directive, prepares the ISO in the temp directory and boots it. Every failure
      * after the temp directory exists removes it; success hands it to the installed machine.
      * `order` is the order in which Go's map iteration visits the keyfiles. */
    method InstallViaIsoEmbed(kargs: seq<string>, outdir: string, offline: bool, minimal: bool, order: seq<string>,
                              host: Host, env: Env) returns (o: Outcome)
      requires env.tempName != "" && host.Fresh(env.tempName) && KeyfileOrder(order, nmKeyfiles)
      modifies this, host, builder
      ensures ArtifactsError(build, IsoArtifacts(native4k)).Some? ==> o == Failed(ArtifactsError(build, IsoArtifacts(native4k)).value)
      ensures ArtifactsError(build, IsoArtifacts(native4k)).None? && minimal && offline ==> o == Panicked(MinimalOfflinePanic)
      ensures (ArtifactsError(build, IsoArtifacts(native4k)).None? && !minimal && offline && |nmKeyfiles| > 0
        ==> o == Failed(KeyfileOfflineError))
      ensures (ArtifactsError(build, IsoArtifacts(native4k)).Some? || (offline && (minimal || |nmKeyfiles| > 0))
        ==> host.dirs == old(host.dirs) && host.files == old(host.files) && host.commands == old(host.commands))
      ensures !o.Installed? ==> host.dirs == old(host.dirs) && host.files == old(host.files)
      ensures o.Installed? ==> (fresh(o.machine) && o.machine.tempdir == env.tempName && o.machine.qemuInst != null
        && o.machine.bootWatched && Owned(old(host.dirs), old(host.files), host.dirs, host.files, env.tempName))
      ensures o.Installed? ==> this.kargs == IsoKargs(env.debug, kargs, |nmKeyfiles| > 0)
      ensures o.Installed? ==> IsoHostAfter(env.tempName, offline, minimal, env.port, order, old(host.dirs), old(host.files), old(host.commands), host)
      ensures o.Installed? ==> IsoLiveAfter(env, offline, minimal, old(live))
      ensures o.Installed? ==> (builder.isos == old(builder.isos) + [(FinalIso(env.tempName, offline, minimal), "bootindex=3")]
        && builder.channels == old(builder.channels) + ["bootstarted"]
        && builder.usermodeNetworking == (old(builder.usermodeNetworking) || !offline))
    {
      var err := CheckArtifactsExist(build, IsoArtifacts(native4k));
      if err.Some? {
        return Failed(err.value);
      }
      assert ArtifactPresent(build, IsoArtifacts(native4k)[0]) && ArtifactPresent(build, IsoArtifacts(native4k)[1]);
      if minimal && offline {
        return Panicked(MinimalOfflinePanic);
      }
      if offline && |nmKeyfiles| > 0 {
        return Failed(KeyfileOfflineError);
      }
      o := IsoInstallChecked(kargs, outdir, offline, minimal, order, host, env);
    }

    /** InstallViaISOEmbed once the artifacts and the mode have been checked. */
    method IsoInstallChecked(kargs: seq<string>, outdir: string, offline: bool, minimal: bool, order: seq<string>,
                             host: Host, env: Env) returns (o: Outcome)
      requires env.tempName != "" && host.Fresh(env.tempName) && KeyfileOrder(order, nmKeyfiles)
      requires "live-iso" in build.artifacts && MetalArtifact(native4k) in build.artifacts
      requires !(minimal && offline) && (offline ==> |nmKeyfiles| == 0)
      modifies this, host, builder
      ensures !o.Installed? ==> host.dirs == old(host.dirs) && host.files == old(host.files)
      ensures o.Installed? ==> (fresh(o.machine) && o.machine.tempdir == env.tempName && o.machine.qemuInst != null
        && o.machine.bootWatched && Owned(old(host.dirs), old(host.files), host.dirs, host.files, env.tempName))
      ensures o.Installed? ==> this.kargs == IsoKargs(env.debug, kargs, |nmKeyfiles| > 0)
      ensures o.Installed? ==> IsoHostAfter(env.tempName, offline, minimal, env.port, order, old(host.dirs), old(host.files), old(host.commands), host)
      ensures o.Installed? ==> IsoLiveAfter(env, offline, minimal, old(live))
      ensures o.Installed? ==> (builder.isos == old(builder.isos) + [(FinalIso(env.tempName, offline, minimal), "bootindex=3")]
        && builder.channels == old(builder.channels) + ["bootstarted"]
        && builder.usermodeNetworking == (old(builder.usermodeNetworking) || !offline))
    {
      var config := NewIsoDirective(env.arch, env.debug);
      this.kargs := RenderDebugKargs(env.debug) + kargs;
      if MkdirTemp in env.failing {
        return Failed(env.failing[MkdirTemp]);
      }
      var tempdir := env.tempName;
      host.Mkdir(tempdir);
      ghost var d0, f0 := old(host.dirs), old(host.files);
      assert Owned(d0, f0, host.dirs, host.files, tempdir);
      var q := IsoBoot(config, tempdir, outdir, offline, minimal, order, host, env, d0, f0);
      if q.Err? {
        CleanupTempdir(host, tempdir, d0, f0);
        return Failed(q.error);
      }
      var m := new InstalledMachine(q.value, tempdir);
      return Installed(m);
    }

    /** The directive as InstallViaISOEmbed first builds it. */
    method NewIsoDirective(arch: string, debug: bool) returns (config: InstallerConfig)
      ensures config == IsoBaseDirective(arch, debug, multipathDisk)
    {
      config := InstallerConfig("", PointerIgnitionPath, false, RenderDebugKargs(debug), false, "/dev/vda", []);
      if arch != "s390x" {
        config := config.(console := [ConsoleKernelArgument(arch)]);
      }
      if multipathDisk {
        config := config.(destDevice := MultipathDevice, appendKargs := config.appendKargs + MultipathKargs);
      }
    }

    /** The host after a successful ISO install: the temp directory, the keyfiles written in it
      * and the external commands run. */
    ghost predicate IsoHostAfter(tempdir: string, offline: bool, minimal: bool, port: nat, order: seq<string>,
                                 d0: set<string>, f0: map<string, FileContent>, c0: seq<seq<string>>, host: Host)
      reads this, host
    {
      && "live-iso" in build.artifacts && (forall n :: n in order ==> n in nmKeyfiles)
      && host.dirs == d0 + {tempdir}
      && host.files == f0 + KeyfileFiles(tempdir, order, nmKeyfiles)
      && host.commands == c0 + IsoCommands(PathJoin(build.dir, build.artifacts["live-iso"]), tempdir, offline, minimal,
                                           port, KeyfilePaths(tempdir, order), kargs)
    }

    /** The live config after a successful ISO install, handed to QEMU: it carries the target
      * config and the directive IsoInstallerConfig describes. */
    ghost predicate IsoLiveAfter(env: Env, offline: bool, minimal: bool, live0: LiveConfig)
      reads this, builder
    {
      && MetalArtifact(native4k) in build.artifacts
      && live == IsoLiveConfig(live0, IsoPayload(offline, env.port),
           IsoInstallerConfig(env.arch, env.debug, multipathDisk, offline, minimal, IsoBaseurl(env.port),
                              build.artifacts[MetalArtifact(native4k)], |nmKeyfiles| > 0, insecure), multipathDisk)
      && builder.config == Some(live)
    }

    /** InstallViaISOEmbed from the point the temp directory exists: the ISO is prepared, the
      * directive completed and QEMU started. The host stays owned whatever happens. */
    method IsoBoot(config0: InstallerConfig, tempdir: string, outdir: string, offline: bool, minimal: bool,
                   order: seq<string>, host: Host, env: Env, ghost d0: set<string>, ghost f0: map<string, FileContent>)
      returns (q: Result<QemuInstance, string>)
      requires "live-iso" in build.artifacts && MetalArtifact(native4k) in build.artifacts
      requires !(minimal && offline) && (offline ==> |nmKeyfiles| == 0) && KeyfileOrder(order, nmKeyfiles)
      requires config0 == IsoBaseDirective(env.arch, env.debug, multipathDisk)
      requires tempdir == env.tempName && Owned(d0, f0, host.dirs, host.files, tempdir)
      requires host.dirs == d0 + {tempdir} && host.files == f0
      modifies this, host, builder
      ensures Owned(d0, f0, host.dirs, host.files, tempdir)
      ensures q.Ok? ==> (fresh(q.value) && q.value.destroyCount == 0
        && kargs == old(kargs) + (if |nmKeyfiles| > 0 then ["rd.neednet=1"] else []))
      ensures q.Ok? ==> IsoHostAfter(tempdir, offline, minimal, env.port, order, d0, f0, old(host.commands), host)
      ensures q.Ok? ==> IsoLiveAfter(env, offline, minimal, old(live))
      ensures q.Ok? ==> (builder.isos == old(builder.isos) + [(FinalIso(tempdir, offline, minimal), "bootindex=3")]
        && builder.channels == old(builder.channels) + ["bootstarted"]
        && builder.usermodeNetworking == (old(builder.usermodeNetworking) || !offline))
    {
      var iso, err := PrepareIso(tempdir, outdir, offline, minimal, order, host, env, d0, f0);
      if err.Some? {
        return Err(err.value);
      }
      var config := FinishDirective(config0, offline, minimal, |order| > 0, env);
      q := LaunchIso(config, IsoPayload(offline, env.port), iso, outdir, offline, env);
    }

    /** The ISO preparation of InstallViaISOEmbed: staging, the networked branch, the keyfiles
      * and the kernel arguments; the directive is completed along the way. */
    method PrepareIso(tempdir: string, outdir: string, offline: bool, minimal: bool,
                      order: seq<string>, host: Host, env: Env, ghost d0: set<string>, ghost f0: map<string, FileContent>)
      returns (iso: string, err: Option<string>)
      requires "live-iso" in build.artifacts && MetalArtifact(native4k) in build.artifacts
      requires !(minimal && offline) && (offline ==> |nmKeyfiles| == 0) && KeyfileOrder(order, nmKeyfiles)
      requires Owned(d0, f0, host.dirs, host.files, tempdir)
      modifies this, host
      ensures Owned(d0, f0, host.dirs, host.files, tempdir) && host.dirs == old(host.dirs) && live == old(live)
      ensures err.None? ==> kargs == old(kargs) + (if |nmKeyfiles| > 0 then ["rd.neednet=1"] else [])
      ensures err.None? ==> iso == FinalIso(tempdir, offline, minimal)
      ensures err.None? ==> host.files == old(host.files) + KeyfileFiles(tempdir, order, nmKeyfiles)
      ensures err.None? ==> (host.commands == old(host.commands) + IsoCommands(PathJoin(build.dir, build.artifacts["live-iso"]),
        tempdir, offline, minimal, env.port, KeyfilePaths(tempdir, order), kargs))
    {
      iso, err := StageAndServe(tempdir, outdir, offline, minimal, host, env);
      if err.Some? {
        KeepOwned(d0, f0, old(host.dirs), old(host.files), host.dirs, host.files, tempdir);
        return;
      }
      ghost var served := host.commands;
      err := EmbedKeyfiles(tempdir, iso, order, host, env, d0, f0);
      if err.Some? {
        return;
      }
      if |order| > 0 {
        kargs := kargs + ["rd.neednet=1"];
      }
      ghost var embedded := host.commands;
      if |kargs| > 0 {
        err := ModifyKargs(iso, host, env);
        if err.Some? {
          return;
        }
      }
      IsoCommandsSplit(old(host.commands), served, embedded, host.commands, PathJoin(build.dir, build.artifacts["live-iso"]),
        tempdir, offline, minimal, env.port, KeyfilePaths(tempdir, order), kargs);
    }

    /** The directive's fields InstallViaISOEmbed sets as it goes: the image URL for a networked
      * full install, CopyNetwork once keyfiles are embedded, and Insecure. */
    method FinishDirective(config0: InstallerConfig, offline: bool, minimal: bool, haveKeyfiles: bool, env: Env)
      returns (config: InstallerConfig)
      requires MetalArtifact(native4k) in build.artifacts
      requires config0 == IsoBaseDirective(env.arch, env.debug, multipathDisk)
      ensures (config == IsoInstallerConfig(env.arch, env.debug, multipathDisk, offline, minimal, IsoBaseurl(env.port),
        build.artifacts[MetalArtifact(native4k)], haveKeyfiles, insecure))
    {
      config := config0;
      if !offline && !minimal {
        config := config.(imageUrl := IsoBaseurl(env.port) + "/" + build.artifacts[MetalArtifact(native4k)]);
      }
      if haveKeyfiles {
        config := config.(copyNetwork := true);
      }
      if insecure {
        config := config.(insecure := true);
      }
    }

    /** The staging steps and, for a networked install, the server and pointer-config steps. */
    method StageAndServe(tempdir: string, outdir: string, offline: bool, minimal: bool, host: Host, env: Env)
      returns (iso: string, err: Option<string>)
      requires "live-iso" in build.artifacts && MetalArtifact(native4k) in build.artifacts
      requires !(minimal && offline)
      modifies host
      ensures host.dirs == old(host.dirs) && host.files == old(host.files)
      ensures err.None? ==> iso == FinalIso(tempdir, offline, minimal)
      ensures err.None? ==> (host.commands == old(host.commands)
        + IsoCommands(PathJoin(build.dir, build.artifacts["live-iso"]), tempdir, offline, minimal, env.port, [], []))
    {
      iso, err := StageIso(tempdir, outdir, host, env);
      if err.None? && !offline {
        var copied := iso;
        iso, err := ServeTarget(tempdir, outdir, minimal, copied, host, env);
      }
    }

    /** Writes the target config (and its debugging copy), copies the live ISO into the temp
      * directory, makes it writable and links the metal image. */
    method StageIso(tempdir: string, outdir: string, host: Host, env: Env) returns (iso: string, err: Option<string>)
      requires "live-iso" in build.artifacts && MetalArtifact(native4k) in build.artifacts
      modifies host
      ensures iso == PathJoin(tempdir, "install.iso")
      ensures host.dirs == old(host.dirs) && host.files == old(host.files)
      ensures err.None? ==> host.commands == old(host.commands) + [CopyIsoArgv(PathJoin(build.dir, build.artifacts["live-iso"]), iso)]
    {
      iso := PathJoin(tempdir, "install.iso");
      err := RunSteps([WriteConfig(PathJoin(tempdir, "target.ign")), WriteConfig(PathJoin(outdir, "config-target.ign"))], env);
      if err.Some? {
        return;
      }
      err := host.Exec(CopyIsoArgv(PathJoin(build.dir, build.artifacts["live-iso"]), iso), env);
      if err.Some? {
        return iso, Some(Wrap("copying iso", err.value));
      }
      if Chmod(iso) in env.failing {
        return iso, Some(Wrap("setting permissions on iso", env.failing[Chmod(iso)]));
      }
      var metallink := PathJoin(tempdir, build.artifacts[MetalArtifact(native4k)]);
      if Symlink(metallink) in env.failing {
        return iso, Some(Wrap("setting up metal image", env.failing[Symlink(metallink)]));
      }
    }

    /** The networked branch: starts the HTTP server, extracts the minimal ISO for a minimal
      * install and renders the pointer config (saving a copy for debugging). */
    method ServeTarget(tempdir: string, outdir: string, minimal: bool, copied: string, host: Host, env: Env)
      returns (iso: string, err: Option<string>)
      modifies host
      ensures host.dirs == old(host.dirs) && host.files == old(host.files)
      ensures err.None? ==> iso == (if minimal then PathJoin(tempdir, "minimal.iso") else copied)
      ensures err.None? ==> (host.commands == old(host.commands)
        + (if minimal then [ExtractMinimalArgv(copied, tempdir, IsoBaseurl(env.port))] else []))
    {
      iso := copied;
      if Listen in env.failing {
        return iso, Some(env.failing[Listen]);
      }
      if minimal {
        err := host.Exec(ExtractMinimalArgv(copied, tempdir, IsoBaseurl(env.port)), env);
        if err.Some? {
          return iso, Some(Wrap("running coreos-installer iso extract minimal", err.value));
        }
        iso := PathJoin(tempdir, "minimal.iso");
      }
      err := RunSteps([RenderPointer, WriteConfig(PathJoin(outdir, "config-target-pointer.ign"))], env);
    }

    /** Writes each network keyfile into the temp directory and, when there are any, embeds them
      * into the ISO. */
    method EmbedKeyfiles(tempdir: string, iso: string, order: seq<string>, host: Host, env: Env,
                         ghost d0: set<string>, ghost f0: map<string, FileContent>) returns (err: Option<string>)
      requires forall n :: n in order ==> n in nmKeyfiles
      requires Owned(d0, f0, host.dirs, host.files, tempdir)
      modifies host
      ensures Owned(d0, f0, host.dirs, host.files, tempdir) && host.dirs == old(host.dirs)
      ensures err.None? ==> host.files == old(host.files) + KeyfileFiles(tempdir, order, nmKeyfiles)
      ensures err.None? ==> (host.commands == old(host.commands)
        + (if order == [] then [] else [NetworkEmbedArgv(iso, KeyfilePaths(tempdir, order))]))
    {
      var keyfileArgs;
      keyfileArgs, err := WriteKeyfiles(tempdir, order, host, env, d0, f0);
      if err.None? && |keyfileArgs| > 0 {
        err := host.Exec([IsoInstaller, "iso", "network", "embed", iso] + keyfileArgs, env);
        if err.Some? {
          err := Some(Wrap("running coreos-installer iso network embed", err.value));
        }
      }
    }

    /** The keyfile loop: each keyfile is written under the temp directory and named in a
      * `--keyfile` argument. */
    method WriteKeyfiles(tempdir: string, order: seq<string>, host: Host, env: Env,
                         ghost d0: set<string>, ghost f0: map<string, FileContent>)
      returns (keyfileArgs: seq<string>, err: Option<string>)
      requires forall n :: n in order ==> n in nmKeyfiles
      requires Owned(d0, f0, host.dirs, host.files, tempdir)
      modifies host
      ensures Owned(d0, f0, host.dirs, host.files, tempdir)
      ensures host.dirs == old(host.dirs) && host.commands == old(host.commands)
      ensures err.None? ==> host.files == old(host.files) + KeyfileFiles(tempdir, order, nmKeyfiles)
      ensures err.None? ==> keyfileArgs == Flagged("--keyfile", KeyfilePaths(tempdir, order))
    {
      ghost var written;
      keyfileArgs, err, written := WriteKeyfilesLoop(tempdir, order, host, env);
      KeyfileFilesOwned(d0, f0, old(host.dirs), old(host.files), tempdir, order[..written], nmKeyfiles);
      assert order[..|order|] == order;
    }

    /** The loop itself; `written` counts the keyfiles written before it stopped. */
    method WriteKeyfilesLoop(tempdir: string, order: seq<string>, host: Host, env: Env)
      returns (keyfileArgs: seq<string>, err: Option<string>, ghost written: nat)
      requires forall n :: n in order ==> n in nmKeyfiles
      modifies host
      ensures written <= |order| && (err.None? ==> written == |order|)
      ensures host.dirs == old(host.dirs) && host.commands == old(host.commands)
      ensures host.files == old(host.files) + KeyfileFiles(tempdir, order[..written], nmKeyfiles)
      ensures err.None? ==> keyfileArgs == Flagged("--keyfile", KeyfilePaths(tempdir, order))
    {
      keyfileArgs := [];
      for i := 0 to |order|
        invariant host.dirs == old(host.dirs) && host.commands == old(host.commands)
        invariant host.files == old(host.files) + KeyfileFiles(tempdir, order[..i], nmKeyfiles)
        invariant keyfileArgs == Flagged("--keyfile", KeyfilePaths(tempdir, order[..i]))
      {
        var path := PathJoin(tempdir, order[i]);
        err := host.TryWrite(path, Text(nmKeyfiles[order[i]]), env);
        if err.Some? {
          written := i;
          return;
        }
        assert order[..i + 1][..i] == order[..i];
        assert KeyfilePaths(tempdir, order[..i + 1]) == KeyfilePaths(tempdir, order[..i]) + [path];
        UnionUpdate(old(host.files), KeyfileFiles(tempdir, order[..i], nmKeyfiles), path, Text(nmKeyfiles[order[i]]));
        keyfileArgs := keyfileArgs + ["--keyfile", path];
      }
      assert order[..|order|] == order;
      err := None;
      written := |order|;
    }

    /** Appends the install's kernel arguments to the ISO. */
    method ModifyKargs(iso: string, host: Host, env: Env) returns (err: Option<string>)
      modifies host
      ensures host.dirs == old(host.dirs) && host.files == old(host.files)
      ensures err.None? ==> host.commands == old(host.commands) + [KargsModifyArgv(iso, kargs)]
    {
      var args := AppendFlags([IsoInstaller, "iso", "kargs", "modify", iso], "--append", kargs);
      err := host.Exec(args, env);
      if err.Some? {
        err := Some(Wrap("running coreos-installer iso kargs", err.value));
      }
    }

    /** The live config additions of InstallViaISOEmbed, in the order the source makes them. */
    method ExtendLive(payload: Payload, config: InstallerConfig)
      modifies this
      ensures live == IsoLiveConfig(old(live), payload, config, multipathDisk) && kargs == old(kargs)
    {
      live := AddUnit(live, BootStartedUnit);
      live := AddFile(live, PointerIgnitionPath, Target(payload));
      live := AddFile(live, DirectivePath, Directive(config));
      live := live.(autoLogin := true);
      if multipathDisk {
        live := AddUnit(live, MultipathUnit);
        live := AddDropin(live, InstallerUnit, MultipathDropin);
      }
    }

    /** The end of InstallViaISOEmbed: completes the live config, hands it to QEMU with the
      * boot-started channel and the ISO, and starts QEMU. */
    method LaunchIso(config: InstallerConfig, payload: Payload, iso: string, outdir: string, offline: bool, env: Env)
      returns (q: Result<QemuInstance, string>)
      modifies this, builder
      ensures kargs == old(kargs)
      ensures live == IsoLiveConfig(old(live), payload, config, multipathDisk)
      ensures q.Ok? ==> builder.config == Some(live) && builder.channels == old(builder.channels) + ["bootstarted"]
      ensures q.Ok? ==> builder.isos == old(builder.isos) + [(iso, "bootindex=3")]
      ensures q.Ok? ==> builder.usermodeNetworking == (old(builder.usermodeNetworking) || !offline)
      ensures q.Ok? ==> fresh(q.value) && q.value.destroyCount == 0
    {
      ExtendLive(payload, config);
      var err := builder.VirtioChannelRead("bootstarted", env);
      if err.Some? {
        return Err(err.value);
      }
      builder.SetConfig(live);
      var liveConfigPath := PathJoin(outdir, "config-live.ign");
      if WriteConfig(liveConfigPath) in env.failing {
        return Err(env.failing[WriteConfig(liveConfigPath)]);
      }
      err := builder.AddIso(iso, "bootindex=3", env);
      if err.Some? {
        return Err(err.value);
      }
      if !offline {
        builder.usermodeNetworking := true;
      }
      q := builder.Exec(env);
    }

    /** runPXE: sets up the install, renders the kernel arguments, completes the PXE setup and
      * starts QEMU; the deferred destroy closes the builder and, unless ownership has passed to
      * the machine, removes the temp directory. */
    method RunPxe(kern: KernelSetup, offline: bool, host: Host, env: Env) returns (r: Result<InstalledMachine, string>)
      requires env.tempName != "" && host.Fresh(env.tempName)
      modifies this, host, builder
      ensures live.files == old(live.files) && kargs == old(kargs)
      ensures r.Err? ==> host.dirs == old(host.dirs) && host.files == old(host.files)
      ensures (ArtifactsError(build, [MetalArtifact(native4k)]).Some?
        ==> r == Err(Wrap(SetupContext, ArtifactsError(build, [MetalArtifact(native4k)]).value)))
      ensures r.Ok? ==> (fresh(r.value) && r.value.qemuInst != null && fresh(r.value.qemuInst)
        && r.value.qemuInst.destroyCount == 0 && r.value.tempdir == env.tempName && r.value.bootWatched)
      ensures r.Ok? ==> Owned(old(host.dirs), old(host.files), host.dirs, host.files, env.tempName)
      ensures r.Ok? ==> builder.closed && builder.channels == old(builder.channels) + ["bootstarted"]
      ensures r.Ok? ==> ArtifactPresent(build, MetalArtifact(native4k)) && ArchPxeSetup(env.arch, builder.firmware).Ok?
      ensures r.Ok? ==> host.files == old(host.files)[BootConfigPath(ArchPxeSetup(env.arch, builder.firmware).value.boottype, PathJoin(env.tempName, "tftp")) :=
        BootConfig(ArchPxeSetup(env.arch, builder.firmware).value.boottype, env.arch, kern.kernel, kern.initramfs,
          Join(PxeKargs(env.arch, old(kargs), Baseurl(ArchPxeSetup(env.arch, builder.firmware).value.tftpipaddr, env.port),
                        build.artifacts[MetalArtifact(native4k)], offline, insecure, kern.rootfs, pxeAppendRootfs), " "))]
      ensures r.Ok? ==> (host.commands == old(host.commands)
        + BootCommands(ArchPxeSetup(env.arch, builder.firmware).value, PathJoin(env.tempName, "tftp"), kern))
      ensures r.Ok? ==> (builder.args == old(builder.args)
        + NetArgs(Completed(ArchPxeSetup(env.arch, builder.firmware).value), PathJoin(env.tempName, "tftp")))
    {
      var setup := Setup(kern, host, env);
      if setup.Err? {
        return Err(Wrap(SetupContext, setup.error));
      }
      var t := setup.value;
      r := RunPxeWith(t, offline, host, env, old(host.dirs), old(host.files));
    }

    /** runPXE from the point setup has succeeded. */
    method RunPxeWith(t: InstallerRun, offline: bool, host: Host, env: Env, ghost d0: set<string>, ghost f0: map<string, FileContent>)
      returns (r: Result<InstalledMachine, string>)
      requires t.Valid() && t.tempdir == t.root && t.inst == this && Owned(d0, f0, host.dirs, host.files, t.root)
      modifies t, host, builder
      ensures r.Err? ==> host.dirs == d0 && host.files == f0
      ensures r.Ok? ==> (fresh(r.value) && r.value.qemuInst != null && fresh(r.value.qemuInst)
        && r.value.qemuInst.destroyCount == 0 && r.value.tempdir == t.root && r.value.bootWatched)
      ensures r.Ok? ==> Owned(d0, f0, host.dirs, host.files, t.root)
      ensures r.Ok? ==> builder.closed && builder.channels == old(builder.channels) + ["bootstarted"]
      ensures r.Ok? ==> host.files == old(host.files)[BootConfigPath(old(t.pxe).boottype, t.tftpdir) :=
        BootConfig(old(t.pxe).boottype, env.arch, t.kern.kernel, t.kern.initramfs,
          Join(PxeKargs(env.arch, kargs, t.baseurl, t.metalname, offline, insecure, t.kern.rootfs, pxeAppendRootfs), " "))]
      ensures r.Ok? ==> host.commands == old(host.commands) + BootCommands(old(t.pxe), t.tftpdir, t.kern)
      ensures r.Ok? ==> builder.args == old(builder.args) + NetArgs(Completed(old(t.pxe)), t.tftpdir)
    {
      var err := PrepareBoot(t, offline, host, env, d0, f0);
      if err.Some? {
        return Err(err.value);
      }
      r := Launch(t, host, env, d0, f0);
    }

    /** The middle of runPXE: the boot-started channel, the kernel arguments and
      * completePxeSetup; on a failure the deferred destroy has run and the error is wrapped. */
    method PrepareBoot(t: InstallerRun, offline: bool, host: Host, env: Env, ghost d0: set<string>, ghost f0: map<string, FileContent>)
      returns (err: Option<string>)
      requires t.Valid() && t.tempdir == t.root && t.inst == this && Owned(d0, f0, host.dirs, host.files, t.root)
      modifies t, host, builder
      ensures err.Some? ==> host.dirs == d0 && host.files == f0
      ensures t.Valid() && t.tempdir == t.root
      ensures err.None? ==> Owned(d0, f0, host.dirs, host.files, t.root)
      ensures err.None? ==> builder.args == old(builder.args) && builder.channels == old(builder.channels) + ["bootstarted"]
      ensures err.None? ==> t.pxe == Completed(old(t.pxe))
      ensures err.None? ==> host.files == old(host.files)[BootConfigPath(old(t.pxe).boottype, t.tftpdir) :=
        BootConfig(old(t.pxe).boottype, env.arch, t.kern.kernel, t.kern.initramfs,
          Join(PxeKargs(env.arch, kargs, t.baseurl, t.metalname, offline, insecure, t.kern.rootfs, pxeAppendRootfs), " "))]
      ensures err.None? ==> host.commands == old(host.commands) + BootCommands(old(t.pxe), t.tftpdir, t.kern)
    {
      err := builder.VirtioChannelRead("bootstarted", env);
      if err.Some? {
        DestroyRun(t, host, d0, f0);
        return Some(Wrap("setting up bootstarted virtio-serial channel", err.value));
      }
      var all := LiveKargs(env.arch, kargs, t.baseurl, t.metalname, offline, insecure);
      err := t.CompletePxeSetup(all, host, env, d0, f0);
      if err.Some? {
        DestroyRun(t, host, d0, f0);
        return Some(Wrap("completing PXE setup", err.value));
      }
    }
  }

  /** The end of runPXE: starts QEMU and hands the temp directory to the installed machine,
    * then runs the deferred destroy (which now only closes the builder). */
  method Launch(t: InstallerRun, host: Host, env: Env, ghost d0: set<string>, ghost f0: map<string, FileContent>)
    returns (r: Result<InstalledMachine, string>)
    requires t.Valid() && t.tempdir == t.root && Owned(d0, f0, host.dirs, host.files, t.root)
    modifies t, host, t.builder
    ensures r.Err? ==> host.dirs == d0 && host.files == f0
    ensures r.Err? <==> Op.Exec in env.failing
    ensures r.Ok? ==> (fresh(r.value) && r.value.qemuInst != null && fresh(r.value.qemuInst)
      && r.value.qemuInst.destroyCount == 0 && r.value.tempdir == t.root && r.value.bootWatched)
    ensures r.Ok? ==> host.dirs == old(host.dirs) && host.files == old(host.files)
    ensures host.commands == old(host.commands)
    ensures t.builder.closed && t.builder.channels == old(t.builder.channels)
    ensures r.Ok? ==> t.builder.args == old(t.builder.args) + NetArgs(t.pxe, t.tftpdir)
    ensures t.pxe == old(t.pxe) && (r.Ok? ==> t.tempdir == "")
  {
    var q := t.Run(env);
    if q.Err? {
      DestroyRun(t, host, d0, f0);
      return Err(Wrap("running PXE install", q.error));
    }
    var tempdir := t.tempdir;
    t.tempdir := "";
    var m := new InstalledMachine(q.value, tempdir);
    t.Destroy(host);
    return Ok(m);
  }

  /** The deferred destroy on a failure path: the run still owns the directory, so the host is
    * restored. */
  method DestroyRun(t: InstallerRun, host: Host, ghost d0: set<string>, ghost f0: map<string, FileContent>)
    requires t.Valid() && t.tempdir == t.root && Owned(d0, f0, host.dirs, host.files, t.root)
    modifies t.builder, host
    ensures t.builder.closed && host.dirs == d0 && host.files == f0 && host.commands == old(host.commands)
    ensures t.builder.channels == old(t.builder.channels)
  {
    t.Destroy(host);
    RemoveAllRestores(d0, f0, old(host.dirs), old(host.files), t.root);
  }
}
