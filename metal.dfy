/**
 * The decision logic of mantle/platform/metal.go that maps flags to strings and records:
 * the per-architecture PXE boot parameters, the kernel arguments of a PXE install, the QEMU
 * network arguments, the installer directive (`installerConfig`) and the outcome rules of the
 * two watchers that `switchBootOrderSignal` starts. The CPU architecture and the
 * COSA_TESTISO_DEBUG flag are parameters.
 */
module Metal {
  import opened Wrappers
  import opened GoStrings

  const DefaultQemuHostIPv4: string := "10.0.2.2"
  const PxeTftpAddress: string := "192.168.76.2"
  const BootStartedSignal: string := "boot-started-OK"
  const BaseKargs: seq<string> := ["rd.neednet=1", "ip=dhcp", "ignition.firstboot", "ignition.platform.id=metal"]
  const Architectures: set<string> := {"x86_64", "aarch64", "ppc64le", "s390x"}

  /** pkg/errors' Wrap: the context, a colon and the wrapped error's text. */
  function Wrap(context: string, err: string): string {
    context + ": " + err
  }

  /** The `consoleKernelArgument` map; like a Go map lookup, an unknown architecture gives "". */
  function ConsoleKernelArgument(arch: string): (console: string)
    ensures console != "" <==> arch in Architectures
  {
    if arch == "x86_64" then "ttyS0,115200n8"
    else if arch == "ppc64le" then "hvc0"
    else if arch == "aarch64" then "ttyAMA0"
    else if arch == "s390x" then "ttysclp0"
    else ""
  }

  // ---------------------------------------------------------------- boot parameters

  /** The two values `pxeSetup.boottype` takes ("pxe" and "grub"). */
  datatype BootType = Pxe | Grub

  /** pxeSetup: the boot parameters an architecture needs. `bootfile` is filled in later for
    * the `pxe` boot type (by completePxeSetup). */
  datatype PxeSetup = PxeSetup(
    tftpipaddr: string,
    boottype: BootType,
    networkdevice: string,
    bootindex: string,
    pxeimagepath: string,
    bootfile: string)

  const UnsupportedArchPrefix: string := "Unsupported arch "

  /** The message of the error for an unsupported architecture, as its format string intends. */
  function UnsupportedArchMessage(arch: string): string {
    UnsupportedArchPrefix + arch
  }

  /** The architecture switch of Install.setup. */
  function ArchPxeSetup(arch: string, firmware: string): (r: Result<PxeSetup, string>)
    ensures r.Ok? <==> arch in Architectures
    ensures r.Err? ==> r.error == UnsupportedArchMessage(arch)
    ensures r.Ok? ==> r.value.networkdevice != ""
    ensures r.Ok? ==> (r.value.tftpipaddr == DefaultQemuHostIPv4 <==> arch == "s390x")
    ensures r.Ok? && arch != "s390x" ==> r.value.tftpipaddr == PxeTftpAddress
    ensures r.Ok? ==> (r.value.boottype == Grub <==> r.value.bootfile != "")
    ensures r.Ok? ==> (r.value.bootindex != "" <==> arch == "aarch64" || arch == "s390x" || (arch == "x86_64" && firmware == "uefi"))
  {
    if arch == "x86_64" then
      if firmware == "uefi" then
        Ok(PxeSetup(PxeTftpAddress, Grub, "e1000", "2", "/boot/efi/EFI/fedora/grubx64.efi", "/boot/grub2/grubx64.efi"))
      else
        Ok(PxeSetup(PxeTftpAddress, Pxe, "e1000", "", "/usr/share/syslinux/", ""))
    else if arch == "aarch64" then
      Ok(PxeSetup(PxeTftpAddress, Grub, "virtio-net-pci", "1", "/boot/efi/EFI/fedora/grubaa64.efi", "/boot/grub2/grubaa64.efi"))
    else if arch == "ppc64le" then
      Ok(PxeSetup(PxeTftpAddress, Grub, "virtio-net-pci", "", "", "/boot/grub2/powerpc-ieee1275/core.elf"))
    else if arch == "s390x" then
      Ok(PxeSetup(DefaultQemuHostIPv4, Pxe, "virtio-net-ccw", "1", "", ""))
    else
      Err(UnsupportedArchMessage(arch))
  }

  /** x86_64 with UEFI firmware boots through GRUB from an e1000 NIC at boot priority 2. */
  lemma X86UefiUsesGrub()
    ensures var r := ArchPxeSetup("x86_64", "uefi");
      r.Ok? && r.value.boottype == Grub && r.value.bootindex == "2" && r.value.networkdevice == "e1000"
      && r.value.bootfile == "/boot/grub2/grubx64.efi"
  {
  }

  /** The remaining rows of the table: BIOS x86_64 boots pxelinux, aarch64 and ppc64le boot
    * GRUB from virtio-net-pci, s390x boots from virtio-net-ccw through QEMU's own host address. */
  lemma PxeTableRows(firmware: string)
    ensures var r := ArchPxeSetup("x86_64", firmware);
      firmware != "uefi" ==>
        r.Ok? && r.value.boottype == Pxe && r.value.networkdevice == "e1000"
        && r.value.bootindex == "" && r.value.pxeimagepath == "/usr/share/syslinux/"
    ensures var r := ArchPxeSetup("aarch64", firmware);
      r.Ok? && r.value.boottype == Grub && r.value.networkdevice == "virtio-net-pci" && r.value.bootindex == "1"
    ensures var r := ArchPxeSetup("ppc64le", firmware);
      r.Ok? && r.value.boottype == Grub && r.value.networkdevice == "virtio-net-pci" && r.value.bootindex == ""
    ensures var r := ArchPxeSetup("s390x", firmware);
      r.Ok? && r.value.boottype == Pxe && r.value.networkdevice == "virtio-net-ccw" && r.value.bootindex == "1"
        && r.value.tftpipaddr == "10.0.2.2"
    ensures ArchPxeSetup("x86_64", firmware).value.tftpipaddr == "192.168.76.2"
  {
  }

  // ---------------------------------------------------------------- the unsupported-arch message as written

  /** What Go's fmt prints for a format string given no operands: `%%` is a percent sign, a
    * `%` and a verb letter become `%!<verb>(MISSING)`, a final lone `%` becomes `%!(NOVERB)`.
    * (Flags, widths and argument indexes are not modelled.) */
  function SprintfNoOperands(f: string): string
    decreases |f|
  {
    if f == [] then []
    else if f[0] != '%' then [f[0]] + SprintfNoOperands(f[1..])
    else if |f| == 1 then "%!(NOVERB)"
    else if f[1] == '%' then "%" + SprintfNoOperands(f[2..])
    else "%!" + [f[1]] + "(MISSING)" + SprintfNoOperands(f[2..])
  }

  /** The message Install.setup actually builds: `fmt.Errorf("Unsupported arch %s" + arch)`
    * passes the architecture into the format string and gives `%s` no operand. */
  function UnsupportedArchMessageAsWritten(arch: string): string {
    SprintfNoOperands(UnsupportedArchPrefix + "%s" + arch)
  }

  lemma {:induction false} SprintfNoOperandsPlain(s: string)
    requires '%' !in s
    ensures SprintfNoOperands(s) == s
    decreases |s|
  {
    if s != [] {
      SprintfNoOperandsPlain(s[1..]);
      assert [s[0]] + s[1..] == s;
    }
  }

  lemma {:induction false} SprintfNoOperandsLiteralPrefix(p: string, rest: string)
    requires '%' !in p
    ensures SprintfNoOperands(p + rest) == p + SprintfNoOperands(rest)
    decreases |p|
  {
    if p != [] {
      assert p[0] in p;
      var f := p + rest;
      assert f[0] == p[0] && f[1..] == p[1..] + rest;
      assert SprintfNoOperands(f) == [p[0]] + SprintfNoOperands(f[1..]);
      SprintfNoOperandsLiteralPrefix(p[1..], rest);
      assert [p[0]] + (p[1..] + SprintfNoOperands(rest)) == p + SprintfNoOperands(rest);
    } else {
      assert p + rest == rest;
    }
  }

  /** A `%s` with no operand prints as `%!s(MISSING)`. */
  lemma SprintfMissingString(rest: string)
    ensures SprintfNoOperands("%s" + rest) == "%!s(MISSING)" + SprintfNoOperands(rest)
  {
    var f := "%s" + rest;
    assert f[0] == '%' && f[1] == 's' && f[2..] == rest;
    assert "%!" + ['s'] + "(MISSING)" == "%!s(MISSING)";
  }

  /** For every architecture name without a `%`, the message as written carries the marker
    * `%!s(MISSING)` before the name, so it never equals the intended message. */
  lemma UnsupportedArchMessageGarbled(arch: string)
    requires '%' !in arch
    ensures UnsupportedArchMessageAsWritten(arch) == UnsupportedArchPrefix + "%!s(MISSING)" + arch
    ensures UnsupportedArchMessageAsWritten(arch) != UnsupportedArchMessage(arch)
  {
    assert UnsupportedArchPrefix + "%s" + arch == UnsupportedArchPrefix + ("%s" + arch);
    SprintfNoOperandsLiteralPrefix(UnsupportedArchPrefix, "%s" + arch);
    SprintfMissingString(arch);
    SprintfNoOperandsPlain(arch);
    assert UnsupportedArchPrefix + ("%!s(MISSING)" + arch) == UnsupportedArchPrefix + "%!s(MISSING)" + arch;
    assert |UnsupportedArchMessageAsWritten(arch)| != |UnsupportedArchMessage(arch)|;
  }

  // ---------------------------------------------------------------- kernel arguments

  /** renderBaseKargs: the fixed base arguments and the architecture's console. */
  function RenderBaseKargs(arch: string): (kargs: seq<string>)
    ensures |kargs| == 5 && kargs[..4] == BaseKargs
    ensures kargs[4] == "console=" + ConsoleKernelArgument(arch)
  {
    BaseKargs + ["console=" + ConsoleKernelArgument(arch)]
  }

  /** renderCosaTestIsoDebugKargs, with the presence of COSA_TESTISO_DEBUG as `debug`. */
  function RenderDebugKargs(debug: bool): (kargs: seq<string>)
    ensures debug ==> |kargs| == 4 && kargs[1] == "systemd.log_level=debug"
    ensures !debug ==> kargs == []
  {
    if debug then
      ["systemd.log_color=0", "systemd.log_level=debug",
       "systemd.journald.forward_to_console=1", "systemd.journald.max_level_console=debug"]
    else []
  }

  /** renderInstallKargs */
  function RenderInstallKargs(baseurl: string, metalname: string, offline: bool, insecure: bool): (kargs: seq<string>)
    ensures |kargs| == 2 + (if offline then 0 else 1) + (if insecure then 1 else 0)
    ensures kargs[0] == "coreos.inst.install_dev=/dev/vda"
    ensures kargs[1] == "coreos.inst.ignition_url=" + baseurl + "/config.ign"
    ensures !offline ==> kargs[2] == ImageUrlKarg(baseurl, metalname)
    ensures insecure <==> kargs[|kargs| - 1] == "coreos.inst.insecure"
  {
    ["coreos.inst.install_dev=/dev/vda", "coreos.inst.ignition_url=" + baseurl + "/config.ign"]
    + (if offline then [] else [ImageUrlKarg(baseurl, metalname)])
    + (if insecure then ["coreos.inst.insecure"] else [])
  }

  function ImageUrlKarg(baseurl: string, metalname: string): string {
    "coreos.inst.image_url=" + baseurl + "/" + metalname
  }

  /** The `coreos.live.rootfs_url` argument completePxeSetup adds, if any. */
  function RootfsKargs(baseurl: string, rootfs: string, appendRootfs: bool): (kargs: seq<string>)
    ensures |kargs| <= 1
    ensures kargs != [] <==> rootfs != "" && !appendRootfs
  {
    if rootfs != "" && !appendRootfs then ["coreos.live.rootfs_url=" + baseurl + "/" + rootfs] else []
  }

  /** The kernel arguments of a PXE install, in the order runPXE and completePxeSetup append
    * them. `instKargs` is `Install.kargs`, which Install.PXE sets to the debug arguments
    * followed by the caller's. */
  function PxeKargs(arch: string, instKargs: seq<string>, baseurl: string, metalname: string,
                    offline: bool, insecure: bool, rootfs: string, appendRootfs: bool): seq<string>
  {
    LiveKargs(arch, instKargs, baseurl, metalname, offline, insecure) + RootfsKargs(baseurl, rootfs, appendRootfs)
  }

  /** The kernel arguments runPXE renders before completePxeSetup adds the rootfs URL. */
  function LiveKargs(arch: string, instKargs: seq<string>, baseurl: string, metalname: string,
                     offline: bool, insecure: bool): seq<string>
  {
    RenderBaseKargs(arch) + instKargs + ["ignition.config.url=" + baseurl + "/pxe-live.ign"]
    + RenderInstallKargs(baseurl, metalname, offline, insecure)
  }

  /** The order of the PXE kernel arguments: base arguments, console, debug arguments, the
    * caller's arguments, the live Ignition URL, the install arguments and, last and only when
    * the rootfs is fetched separately, the rootfs URL. */
  lemma {:induction false} PxeKargsOrder(arch: string, debug: bool, kargs: seq<string>, baseurl: string,
                      metalname: string, offline: bool, insecure: bool, rootfs: string, appendRootfs: bool)
    ensures var all := PxeKargs(arch, RenderDebugKargs(debug) + kargs, baseurl, metalname, offline, insecure, rootfs, appendRootfs);
      var d := |RenderDebugKargs(debug)|;
      var install := RenderInstallKargs(baseurl, metalname, offline, insecure);
      var n := 6 + d + |kargs| + |install|;
      && (|all| == n || |all| == n + 1)
      && all[..4] == BaseKargs
      && all[4] == "console=" + ConsoleKernelArgument(arch)
      && all[5..5 + d] == RenderDebugKargs(debug)
      && all[5 + d..5 + d + |kargs|] == kargs
      && all[5 + d + |kargs|] == "ignition.config.url=" + baseurl + "/pxe-live.ign"
      && all[6 + d + |kargs|..n] == install
      && (|all| == n + 1 <==> rootfs != "" && !appendRootfs)
      && (|all| == n + 1 ==> all[n] == "coreos.live.rootfs_url=" + baseurl + "/" + rootfs)
  {
    var debugKargs := RenderDebugKargs(debug);
    var base := RenderBaseKargs(arch);
    var ign := "ignition.config.url=" + baseurl + "/pxe-live.ign";
    var install := RenderInstallKargs(baseurl, metalname, offline, insecure);
    var rootfsKargs := RootfsKargs(baseurl, rootfs, appendRootfs);
    assert PxeKargs(arch, debugKargs + kargs, baseurl, metalname, offline, insecure, rootfs, appendRootfs)
        == base + debugKargs + kargs + [ign] + install + rootfsKargs;
    ConcatSlices(base, debugKargs, kargs, ign, install, rootfsKargs);
    assert base[..4] == BaseKargs;
  }

  /** Where each part of a six-part concatenation lands. */
  lemma ConcatSlices(a: seq<string>, b: seq<string>, c: seq<string>, x: string, e: seq<string>, f: seq<string>)
    ensures var all := a + b + c + [x] + e + f;
      var i := |a| + |b|;
      var j := i + |c|;
      var k := j + 1 + |e|;
      && |all| == k + |f|
      && all[..|a|] == a && all[|a|..i] == b && all[i..j] == c && all[j] == x && all[j + 1..k] == e && all[k..] == f
  {
  }

  /** The kernel command line of a PXE install: the arguments joined by single spaces. As long
    * as no argument contains a space, splitting the line at spaces gives back the arguments. */
  lemma PxeKargsLineSplits(arch: string, instKargs: seq<string>, baseurl: string, metalname: string,
                           offline: bool, insecure: bool, rootfs: string, appendRootfs: bool)
    requires Free(instKargs, ' ') && ' ' !in baseurl && ' ' !in metalname && ' ' !in rootfs
    ensures var kargs := PxeKargs(arch, instKargs, baseurl, metalname, offline, insecure, rootfs, appendRootfs);
      Split(Join(kargs, " "), ' ') == kargs
  {
    var kargs := PxeKargs(arch, instKargs, baseurl, metalname, offline, insecure, rootfs, appendRootfs);
    var base := RenderBaseKargs(arch);
    var ign := ["ignition.config.url=" + baseurl + "/pxe-live.ign"];
    var install := RenderInstallKargs(baseurl, metalname, offline, insecure);
    var rootfsKargs := RootfsKargs(baseurl, rootfs, appendRootfs);
    assert kargs == (((base + instKargs) + ign) + install) + rootfsKargs;
    BaseKargsSpaceFree(arch);
    LiveKargsSpaceFree(baseurl, metalname, offline, insecure, rootfs, appendRootfs);
    FreeConcat(base, instKargs, ' ');
    FreeConcat(base + instKargs, ign, ' ');
    FreeConcat(base + instKargs + ign, install, ' ');
    FreeConcat(base + instKargs + ign + install, rootfsKargs, ' ');
    SplitJoin(kargs, ' ');
  }

  lemma NoCharConcat(a: string, b: string, c: char)
    requires c !in a && c !in b
    ensures c !in a + b
  {
  }

  lemma BaseKargsSpaceFree(arch: string)
    ensures Free(RenderBaseKargs(arch), ' ')
  {
    NoCharConcat("console=", ConsoleKernelArgument(arch), ' ');
  }

  lemma LiveKargsSpaceFree(baseurl: string, metalname: string, offline: bool, insecure: bool, rootfs: string, appendRootfs: bool)
    requires ' ' !in baseurl && ' ' !in metalname && ' ' !in rootfs
    ensures Free(["ignition.config.url=" + baseurl + "/pxe-live.ign"], ' ')
    ensures Free(RenderInstallKargs(baseurl, metalname, offline, insecure), ' ')
    ensures Free(RootfsKargs(baseurl, rootfs, appendRootfs), ' ')
  {
    LiveIgnitionKargFree(baseurl);
    InstallKargsSpaceFree(baseurl, metalname, offline, insecure);
    if rootfs != "" && !appendRootfs {
      UrlKargFree("coreos.live.rootfs_url=", baseurl, "/", rootfs);
    }
  }

  lemma LiveIgnitionKargFree(baseurl: string)
    requires ' ' !in baseurl
    ensures ' ' !in "ignition.config.url=" + baseurl + "/pxe-live.ign"
  {
    NoCharConcat("ignition.config.url=", baseurl, ' ');
    NoCharConcat("ignition.config.url=" + baseurl, "/pxe-live.ign", ' ');
  }

  lemma InstallKargsSpaceFree(baseurl: string, metalname: string, offline: bool, insecure: bool)
    requires ' ' !in baseurl && ' ' !in metalname
    ensures Free(RenderInstallKargs(baseurl, metalname, offline, insecure), ' ')
  {
    UrlKargFree("coreos.inst.ignition_url=", baseurl, "/config.ign", "");
    assert "coreos.inst.ignition_url=" + baseurl + "/config.ign" + "" == "coreos.inst.ignition_url=" + baseurl + "/config.ign";
    UrlKargFree("coreos.inst.image_url=", baseurl, "/", metalname);
    assert ' ' !in "coreos.inst.install_dev=/dev/vda" && ' ' !in "coreos.inst.insecure";
  }

  /** A `key=` prefix, a URL and a path suffix, none with a space. */
  lemma UrlKargFree(key: string, baseurl: string, sep: string, name: string)
    requires ' ' !in key && ' ' !in baseurl && ' ' !in sep && ' ' !in name
    ensures ' ' !in key + baseurl + sep + name
  {
    NoCharConcat(key, baseurl, ' ');
    NoCharConcat(key + baseurl, sep, ' ');
    NoCharConcat(key + baseurl + sep, name, ' ');
  }

  lemma FreeConcat(a: seq<string>, b: seq<string>, c: char)
    requires Free(a, c) && Free(b, c)
    ensures Free(a + b, c)
  {
    forall i | 0 <= i < |a + b| ensures c !in (a + b)[i] {
      if i >= |a| {
        assert (a + b)[i] == b[i - |a|];
      }
    }
  }

  // ---------------------------------------------------------------- boot loader configuration

  /** The pxelinux configuration completePxeSetup writes (except on s390x, where the file holds
    * just the kernel command line): the template's lines joined by newlines. Read back line by
    * line, it gives those lines with the kernel, the initramfs and the kernel command line filled in. */
  function PxeLinuxConfig(kernel: string, initramfs: string, kargsLine: string): (r: string)
    ensures '\n' !in kernel && '\n' !in initramfs && '\n' !in kargsLine ==>
      Split(r, '\n') == PxeLinuxLines(kernel, initramfs, kargsLine)
  {
    var lines := PxeLinuxLines(kernel, initramfs, kargsLine);
    if '\n' in kernel || '\n' in initramfs || '\n' in kargsLine then Join(lines, "\n")
    else
      SplitJoin(lines, '\n');
      Join(lines, "\n")
  }

  /** The lines of the pxelinux template, the first empty and the last the closing indentation. */
  function PxeLinuxLines(kernel: string, initramfs: string, kargsLine: string): seq<string> {
    ["",
     "\t\tDEFAULT pxeboot",
     "\t\tTIMEOUT 20",
     "\t\tPROMPT 0",
     "\t\tLABEL pxeboot",
     "\t\t\tKERNEL " + kernel,
     "\t\t\tAPPEND initrd=" + initramfs + " " + kargsLine,
     "\t\t"]
  }

  /** The grub.cfg completePxeSetup writes for the `grub` boot type: the template's lines joined
    * by newlines, which read back line by line. */
  function GrubNetConfig(kernel: string, initramfs: string, kargsLine: string): (r: string)
    ensures '\n' !in kernel && '\n' !in initramfs && '\n' !in kargsLine ==>
      Split(r, '\n') == GrubNetLines(kernel, initramfs, kargsLine)
  {
    var lines := GrubNetLines(kernel, initramfs, kargsLine);
    if '\n' in kernel || '\n' in initramfs || '\n' in kargsLine then Join(lines, "\n")
    else
      SplitJoin(lines, '\n');
      Join(lines, "\n")
  }

  /** The lines of the grub template. */
  function GrubNetLines(kernel: string, initramfs: string, kargsLine: string): seq<string> {
    ["",
     "\t\t\tdefault=0",
     "\t\t\ttimeout=1",
     "\t\t\tmenuentry \"CoreOS (BIOS/UEFI)\" {",
     "\t\t\t\techo \"Loading kernel\"",
     "\t\t\t\tlinux /" + kernel + " " + kargsLine,
     "\t\t\t\techo \"Loading initrd\"",
     "\t\t\t\tinitrd " + initramfs,
     "\t\t\t}",
     "\t\t"]
  }

  /** The content of the boot configuration file for a boot type on an architecture: on s390x
    * the pxe file is the bare kernel command line, and otherwise the kernel command line sits on
    * the template's APPEND (pxelinux) or linux (grub) line. */
  function BootConfigText(boottype: BootType, arch: string, kernel: string, initramfs: string, kargsLine: string): (r: string)
    ensures boottype.Pxe? && arch == "s390x" ==> r == kargsLine
    ensures '\n' !in kernel && '\n' !in initramfs && '\n' !in kargsLine && boottype.Pxe? && arch != "s390x" ==>
      |Split(r, '\n')| == 8 && Split(r, '\n')[6] == "\t\t\tAPPEND initrd=" + initramfs + " " + kargsLine
    ensures '\n' !in kernel && '\n' !in initramfs && '\n' !in kargsLine && boottype.Grub? ==>
      |Split(r, '\n')| == 10 && Split(r, '\n')[5] == "\t\t\t\tlinux /" + kernel + " " + kargsLine
  {
    match boottype
    case Pxe => if arch == "s390x" then kargsLine else PxeLinuxConfig(kernel, initramfs, kargsLine)
    case Grub => GrubNetConfig(kernel, initramfs, kargsLine)
  }

  // ---------------------------------------------------------------- QEMU network arguments

  const MacAddress: string := "52:54:00:12:34:56"
  /** The subnet options for a TFTP address other than QEMU's default host address. */
  const AltNet: string := "net=192.168.76.0/24"
  const AltDhcpStart: string := "dhcpstart=192.168.76.9"
  const AltSubnet: string := "," + AltNet + "," + AltDhcpStart

  /** The `-device` value installerRun.run formats first ... */
  function NetdevBase(pxe: PxeSetup): string {
    pxe.networkdevice + ",netdev=mynet0,mac=" + MacAddress
  }

  /** ... and the `-device` value it passes, with the boot index when there is one. */
  function NetdevArg(pxe: PxeSetup): string {
    NetdevBase(pxe) + (if pxe.bootindex == "" then "" else ",bootindex=" + pxe.bootindex)
  }

  /** The `-netdev` value installerRun.run formats first ... */
  function UserNetdevBase(pxe: PxeSetup, tftpdir: string): string {
    "user,id=mynet0,tftp=" + tftpdir + ",bootfile=" + pxe.bootfile
  }

  /** ... and the `-netdev` value it passes, with the subnet options off the default address. */
  function UserNetdevArg(pxe: PxeSetup, tftpdir: string): string {
    UserNetdevBase(pxe, tftpdir) + (if pxe.tftpipaddr != DefaultQemuHostIPv4 then AltSubnet else "")
  }

  /** Everything installerRun.run appends to the QEMU command line, in order. */
  function NetArgs(pxe: PxeSetup, tftpdir: string): (args: seq<string>)
    ensures |args| == if pxe.bootindex == "" then 6 else 4
    ensures pxe.bootindex == "" ==> args[..2] == ["-boot", "once=n"]
    ensures args[|args| - 4..] == ["-device", NetdevArg(pxe), "-netdev", UserNetdevArg(pxe, tftpdir)]
  {
    (if pxe.bootindex == "" then ["-boot", "once=n"] else [])
    + ["-device", NetdevArg(pxe), "-netdev", UserNetdevArg(pxe, tftpdir)]
  }

  lemma JoinHead(x: string, xs: seq<string>, sep: string)
    requires xs != []
    ensures Join([x] + xs, sep) == x + sep + Join(xs, sep)
  {
    assert ([x] + xs)[1..] == xs;
  }

  /** The options QEMU reads from the `-device` value: the device model, the backend, the MAC
    * address and, exactly when the boot index is set, `bootindex`. */
  function NetdevOptionList(pxe: PxeSetup): seq<string> {
    [pxe.networkdevice, "netdev=mynet0", "mac=" + MacAddress]
    + (if pxe.bootindex == "" then [] else ["bootindex=" + pxe.bootindex])
  }

  /** The options QEMU reads from the `-netdev` value: the alternate subnet options appear
    * exactly when the TFTP address is not QEMU's default host address. */
  function UserNetdevOptionList(pxe: PxeSetup, tftpdir: string): seq<string> {
    ["user", "id=mynet0", "tftp=" + tftpdir, "bootfile=" + pxe.bootfile]
    + (if pxe.tftpipaddr != DefaultQemuHostIPv4 then [AltNet, AltDhcpStart] else [])
  }

  lemma NetdevJoin(pxe: PxeSetup)
    ensures Join(NetdevOptionList(pxe), ",") == NetdevArg(pxe)
  {
    var mac := "mac=" + MacAddress;
    var tail := if pxe.bootindex == "" then [] else ["bootindex=" + pxe.bootindex];
    var rest := if pxe.bootindex == "" then "" else ",bootindex=" + pxe.bootindex;
    JoinHead(pxe.networkdevice, ["netdev=mynet0", mac] + tail, ",");
    JoinHead("netdev=mynet0", [mac] + tail, ",");
    if tail != [] {
      JoinHead(mac, tail, ",");
      BootindexLiteral(mac, pxe.bootindex);
    } else {
      assert Join([mac] + tail, ",") == mac + rest;
    }
    assert [pxe.networkdevice] + (["netdev=mynet0"] + ([mac] + tail)) == NetdevOptionList(pxe);
    NetdevLiteral(pxe.networkdevice, MacAddress, rest);
  }

  lemma BootindexLiteral(mac: string, index: string)
    ensures mac + "," + ("bootindex=" + index) == mac + (",bootindex=" + index)
  {
    assert ",bootindex=" == "," + "bootindex=";
  }

  /** The `-device` format string, cut at its commas. */
  lemma NetdevLiteral(device: string, mac: string, rest: string)
    ensures device + ",netdev=mynet0,mac=" + mac + rest == device + "," + ("netdev=mynet0" + "," + ("mac=" + mac + rest))
  {
    assert ",netdev=mynet0,mac=" == "," + "netdev=mynet0" + "," + "mac=";
  }

  lemma NetdevFree(pxe: PxeSetup)
    requires ',' !in pxe.networkdevice && ',' !in pxe.bootindex
    ensures Free(NetdevOptionList(pxe), ',')
  {
    NoCharConcat("mac=", MacAddress, ',');
    NoCharConcat("bootindex=", pxe.bootindex, ',');
  }

  lemma UserNetdevJoin(pxe: PxeSetup, tftpdir: string)
    ensures Join(UserNetdevOptionList(pxe, tftpdir), ",") == UserNetdevArg(pxe, tftpdir)
  {
    var a, b, c, d := "user", "id=mynet0", "tftp=" + tftpdir, "bootfile=" + pxe.bootfile;
    var line := a + "," + b + "," + c + "," + d;
    JoinFour(a, b, c, d, ",");
    UserNetdevPrefix(pxe, tftpdir);
    if pxe.tftpipaddr != DefaultQemuHostIPv4 {
      var e, f := AltNet, AltDhcpStart;
      var opts := UserNetdevOptionList(pxe, tftpdir);
      assert opts == [a, b, c, d] + [e, f];
      JoinHead(e, [f], ",");
      assert Join([e, f], ",") == e + "," + f;
      JoinConcat([a, b, c, d], [e, f], ",");
      assert Join(opts, ",") == line + "," + (e + "," + f);
      assert AltSubnet == "," + (e + "," + f);
      assert UserNetdevArg(pxe, tftpdir) == line + AltSubnet;
    } else {
      assert [a, b, c, d] == UserNetdevOptionList(pxe, tftpdir);
    }
  }

  lemma UserNetdevPrefix(pxe: PxeSetup, tftpdir: string)
    ensures "user" + "," + "id=mynet0" + "," + ("tftp=" + tftpdir) + "," + ("bootfile=" + pxe.bootfile)
         == "user,id=mynet0,tftp=" + tftpdir + ",bootfile=" + pxe.bootfile
  {
    assert "user" + "," + "id=mynet0" + "," + "tftp=" == "user,id=mynet0,tftp=";
    assert "," + "bootfile=" == ",bootfile=";
  }

  lemma JoinFour(a: string, b: string, c: string, d: string, sep: string)
    ensures Join([a, b, c, d], sep) == a + sep + b + sep + c + sep + d
    ensures Join([a, b, c], sep) == a + sep + b + sep + c
  {
    JoinHead(a, [b, c, d], sep);
    JoinHead(b, [c, d], sep);
    JoinHead(c, [d], sep);
    JoinHead(a, [b, c], sep);
    JoinHead(b, [c], sep);
  }

  lemma {:induction false} JoinConcat(xs: seq<string>, ys: seq<string>, sep: string)
    requires xs != [] && ys != []
    ensures Join(xs + ys, sep) == Join(xs, sep) + sep + Join(ys, sep)
    decreases |xs|
  {
    if |xs| == 1 {
      JoinHead(xs[0], ys, sep);
      assert [xs[0]] + ys == xs + ys;
    } else {
      JoinConcat(xs[1..], ys, sep);
      assert (xs + ys)[1..] == xs[1..] + ys;
      JoinHead(xs[0], xs[1..] + ys, sep);
      JoinHead(xs[0], xs[1..], sep);
      assert [xs[0]] + xs[1..] == xs;
      assert [xs[0]] + (xs[1..] + ys) == xs + ys;
    }
  }

  lemma UserNetdevFree(pxe: PxeSetup, tftpdir: string)
    requires ',' !in tftpdir && ',' !in pxe.bootfile
    ensures Free(UserNetdevOptionList(pxe, tftpdir), ',')
  {
    NoCharConcat("tftp=", tftpdir, ',');
    NoCharConcat("bootfile=", pxe.bootfile, ',');
  }

  /** QEMU, splitting the `-device` value at commas, reads exactly the intended options. */
  lemma NetdevOptions(pxe: PxeSetup)
    requires ',' !in pxe.networkdevice && ',' !in pxe.bootindex
    ensures Split(NetdevArg(pxe), ',') == NetdevOptionList(pxe)
  {
    NetdevJoin(pxe);
    NetdevFree(pxe);
    SplitJoin(NetdevOptionList(pxe), ',');
  }

  /** QEMU, splitting the `-netdev` value at commas, reads exactly the intended options. */
  lemma UserNetdevOptions(pxe: PxeSetup, tftpdir: string)
    requires ',' !in tftpdir && ',' !in pxe.bootfile
    ensures Split(UserNetdevArg(pxe, tftpdir), ',') == UserNetdevOptionList(pxe, tftpdir)
  {
    UserNetdevJoin(pxe, tftpdir);
    UserNetdevFree(pxe, tftpdir);
    SplitJoin(UserNetdevOptionList(pxe, tftpdir), ',');
  }

  // ---------------------------------------------------------------- the installer directive

  /** installerConfig: the coreos-installer directive file. Empty strings, `false` and empty
    * lists stand for fields its YAML form omits. */
  datatype InstallerConfig = InstallerConfig(
    imageUrl: string,
    ignitionFile: string,
    insecure: bool,
    appendKargs: seq<string>,
    copyNetwork: bool,
    destDevice: string,
    console: seq<string>)

  /** The directive Install.PXE embeds in the live config, or None on s390x, where it is not
    * embedded. */
  function PxeInstallerConfig(arch: string, debug: bool): (r: Option<InstallerConfig>)
    ensures r.None? <==> arch == "s390x"
    ensures r.Some? ==> (r.value.console == [ConsoleKernelArgument(arch)]
      && r.value.appendKargs == RenderDebugKargs(debug)
      && r.value.destDevice == "" && r.value.imageUrl == "" && !r.value.insecure)
  {
    if arch == "s390x" then None
    else Some(InstallerConfig("", "", false, RenderDebugKargs(debug), false, "", [ConsoleKernelArgument(arch)]))
  }

  const PointerIgnitionPath: string := "/var/opt/pointer.ign"
  const MultipathDevice: string := "/dev/mapper/mpatha"
  const MultipathKargs: seq<string> := ["rd.multipath=default", "root=/dev/disk/by-label/dm-mpath-root", "rw"]

  /** The directive InstallViaISOEmbed starts from: the pointer config, the target disk (the
    * multipath device when the disk is multipathed, with the multipath kernel arguments), the
    * debug kernel arguments and, except on s390x, the console. */
  function IsoBaseDirective(arch: string, debug: bool, multipath: bool): InstallerConfig {
    InstallerConfig(
      "",
      PointerIgnitionPath,
      false,
      RenderDebugKargs(debug) + (if multipath then MultipathKargs else []),
      false,
      if multipath then MultipathDevice else "/dev/vda",
      if arch == "s390x" then [] else [ConsoleKernelArgument(arch)])
  }

  /** The directive InstallViaISOEmbed embeds, as the fields stand when it is serialized.
    * `baseurl` is the URL of the HTTP server started for networked installs; `haveKeyfiles` says
    * whether network keyfiles were embedded. */
  function IsoInstallerConfig(arch: string, debug: bool, multipath: bool, offline: bool, minimal: bool,
                              baseurl: string, metalname: string, haveKeyfiles: bool, insecure: bool): (c: InstallerConfig)
    ensures c.ignitionFile == PointerIgnitionPath
    ensures c.destDevice == (if multipath then MultipathDevice else "/dev/vda")
    ensures c.console == (if arch == "s390x" then [] else [ConsoleKernelArgument(arch)])
    ensures c.appendKargs == RenderDebugKargs(debug) + (if multipath then MultipathKargs else [])
    ensures c.imageUrl != "" <==> !offline && !minimal
    ensures c.imageUrl != "" ==> c.imageUrl == baseurl + "/" + metalname
    ensures c.copyNetwork == haveKeyfiles && c.insecure == insecure
  {
    IsoBaseDirective(arch, debug, multipath).(
      imageUrl := if !offline && !minimal then baseurl + "/" + metalname else "",
      copyNetwork := haveKeyfiles,
      insecure := insecure)
  }

  // ---------------------------------------------------------------- the boot-started watchers

  /** What follows the data the signal stream holds: end of file, a read error, or nothing at
    * all while the channel stays open (the guest wrote no newline and QEMU keeps it open). */
  datatype StreamEnd = AtEof | Broken(err: string) | StaysOpen

  /** What bufio.Reader.ReadString('\n') returns: a line including its newline, or an error;
    * `Blocked` is a call that never returns. */
  datatype LineRead = Line(text: string) | ReadEof | ReadFailed(err: string) | Blocked

  /** ReadString('\n') on a stream holding `data` and then ending with `end`: data without a
    * newline before the end is returned together with the error, and the reader drops it; on a
    * stream that stays open it waits for a newline forever. */
  function ReadString(data: string, end: StreamEnd): (r: LineRead)
    ensures r.Line? <==> '\n' in data
    ensures r.Blocked? <==> '\n' !in data && end.StaysOpen?
    ensures r.ReadEof? <==> '\n' !in data && end.AtEof?
    ensures r.Line? ==> (EndsWith(r.text, '\n') && '\n' !in r.text[..|r.text| - 1]
      && |r.text| <= |data| && r.text == data[..|r.text|])
  {
    if '\n' in data then
      var k := FirstIndex(data, '\n');
      assert data[..k + 1][..k] == data[..k];
      Line(data[..k + 1])
    else
      match end
      case AtEof => ReadEof
      case Broken(e) => ReadFailed(e)
      case StaysOpen => Blocked
  }

  /** What a watcher sends on the boot-started channel: nothing, a nil error, or an error. */
  datatype Sent = NoSend | SendNil | SendErr(err: string)

  /** The signal watcher's decision: whether it calls SwitchBootOrder and what it sends.
    * `switchErr` is the error SwitchBootOrder would return. */
  datatype ReaderReport = ReaderReport(switchCalled: bool, sent: Sent)

  const EofMessage: string := "Got EOF from boot started channel, " + BootStartedSignal + " expected"

  function ReaderOutcome(read: LineRead, switchErr: Option<string>): (r: ReaderReport)
    ensures r.sent == NoSend <==> read.Blocked?
    ensures r.switchCalled <==> read.Line? && TrimSpace(read.text) == BootStartedSignal
    ensures r.sent == SendNil <==> read.Line? && (!r.switchCalled || switchErr.None?)
    ensures read.ReadEof? ==> r.sent == SendErr(EofMessage)
    ensures read.ReadFailed? ==> r.sent == SendErr(Wrap("reading from boot started channel", read.err))
    ensures r.switchCalled && switchErr.Some? ==> r.sent == SendErr(Wrap("switching boot order failed", switchErr.value))
  {
    match read
    case ReadEof => ReaderReport(false, SendErr(EofMessage))
    case ReadFailed(e) => ReaderReport(false, SendErr(Wrap("reading from boot started channel", e)))
    case Blocked => ReaderReport(false, NoSend)
    case Line(l) =>
      if TrimSpace(l) == BootStartedSignal then
        match switchErr
        case Some(e) => ReaderReport(true, SendErr(Wrap("switching boot order failed", e)))
        case None => ReaderReport(true, SendNil)
      else ReaderReport(false, SendNil)
  }

  /** The process watcher's decision from Wait's error and whether the process was signaled:
    * it never reports success, and reports exactly when Wait erred or a signal killed QEMU. */
  function WaiterOutcome(waitErr: Option<string>, signaled: bool): (s: Sent)
    ensures s != SendNil
    ensures s == NoSend <==> waitErr.None? && !signaled
    ensures waitErr.Some? ==> s == SendErr(Wrap("QEMU unexpectedly exited while waiting for " + BootStartedSignal, waitErr.value))
  {
    var err := if waitErr.None? && signaled then Some("process killed") else waitErr;
    match err
    case None => NoSend
    case Some(e) => SendErr(Wrap("QEMU unexpectedly exited while waiting for " + BootStartedSignal, e))
  }

  /** A TrimSpace of a line that holds the marker between white space is the marker. */
  lemma {:induction false} TrimSpaceAround(pre: string, m: string, post: string)
    requires forall i :: 0 <= i < |pre| ==> IsSpace(pre[i])
    requires forall i :: 0 <= i < |post| ==> IsSpace(post[i])
    requires m != [] && !IsSpace(m[0]) && !IsSpace(m[|m| - 1])
    ensures TrimSpace(pre + m + post) == m
  {
    var s := pre + m + post;
    LeadingSpacesOf(pre, m + post);
    assert s == pre + (m + post);
    var t := s[|pre|..];
    assert t == m + post;
    TrailingSpacesOf(m, post);
  }

  lemma {:induction false} LeadingSpacesOf(pre: string, rest: string)
    requires forall i :: 0 <= i < |pre| ==> IsSpace(pre[i])
    requires rest != [] && !IsSpace(rest[0])
    ensures LeadingSpaces(pre + rest) == |pre|
    decreases |pre|
  {
    if pre != [] {
      assert (pre + rest)[1..] == pre[1..] + rest;
      LeadingSpacesOf(pre[1..], rest);
    }
  }

  lemma {:induction false} TrailingSpacesOf(rest: string, post: string)
    requires forall i :: 0 <= i < |post| ==> IsSpace(post[i])
    requires rest != [] && !IsSpace(rest[|rest| - 1])
    ensures TrailingSpaces(rest + post) == |post|
    decreases |post|
  {
    if post != [] {
      assert (rest + post)[..|rest + post| - 1] == rest + post[..|post| - 1];
      TrailingSpacesOf(rest, post[..|post| - 1]);
    }
  }

  /** The guest's `echo boot-started-OK` line, however padded with white space, makes the
    * watcher switch the boot order; with a successful switch it reports success. */
  lemma MarkerLineSwitchesBootOrder(pre: string, post: string, more: string, end: StreamEnd)
    requires forall i :: 0 <= i < |pre| ==> IsSpace(pre[i]) && pre[i] != '\n'
    requires forall i :: 0 <= i < |post| ==> IsSpace(post[i]) && post[i] != '\n'
    ensures var read := ReadString(pre + BootStartedSignal + post + "\n" + more, end);
      read == Line(pre + BootStartedSignal + post + "\n")
      && ReaderOutcome(read, None) == ReaderReport(true, SendNil)
  {
    var line := pre + BootStartedSignal + post;
    var data := line + "\n" + more;
    assert '\n' !in line by {
      forall i | 0 <= i < |line| ensures line[i] != '\n' {
        if i < |pre| {
          assert line[i] == pre[i];
        } else if i < |pre| + |BootStartedSignal| {
          assert line[i] == BootStartedSignal[i - |pre|];
        } else {
          assert line[i] == post[i - |pre| - |BootStartedSignal|];
        }
      }
    }
    assert data == line + ['\n'] + more;
    SplitFirstAt(line, more);
    assert data[..|line| + 1] == line + "\n";
    TrimSpaceAround(pre, BootStartedSignal, post + "\n");
    assert pre + BootStartedSignal + (post + "\n") == line + "\n";
  }

  lemma {:induction false} SplitFirstAt(line: string, more: string)
    requires '\n' !in line
    ensures '\n' in line + ['\n'] + more && FirstIndex(line + ['\n'] + more, '\n') == |line|
    decreases |line|
  {
    var s := line + ['\n'] + more;
    assert s[|line|] == '\n';
    if line != [] {
      assert s[1..] == line[1..] + ['\n'] + more;
      SplitFirstAt(line[1..], more);
    }
  }

  /** A line other than the marker is reported as success without switching the boot order,
    * so a garbled marker line goes unnoticed. */
  lemma MismatchedLineReportsSuccess(l: string, switchErr: Option<string>)
    requires TrimSpace(l) != BootStartedSignal
    ensures ReaderOutcome(Line(l), switchErr) == ReaderReport(false, SendNil)
  {
  }

  /** The single result the consumer of the boot-started channel reads: the first value sent,
    * or nothing while neither watcher sends. `waiterFirst` says whether the process watcher got
    * to the channel first when both send. */
  function FirstReport(waiter: Sent, reader: ReaderReport, waiterFirst: bool): (s: Sent)
    ensures s == NoSend <==> waiter == NoSend && reader.sent == NoSend
    ensures s == waiter || s == reader.sent
    ensures waiter == NoSend ==> s == reader.sent
    ensures reader.sent == NoSend ==> s == waiter
  {
    if waiter != NoSend && (waiterFirst || reader.sent == NoSend) then waiter else reader.sent
  }

  /** Whatever the order of the two watchers, the consumer receives a result exactly unless the
    * read blocks on a stream that stays open while QEMU neither fails nor is killed; an
    * unexpected QEMU exit or an EOF before any signal line is reported as an error. */
  lemma ExactlyOneResult(waitErr: Option<string>, signaled: bool, data: string, end: StreamEnd,
                         switchErr: Option<string>, waiterFirst: bool)
    ensures var r := FirstReport(WaiterOutcome(waitErr, signaled), ReaderOutcome(ReadString(data, end), switchErr), waiterFirst);
      && (r == NoSend <==> '\n' !in data && end.StaysOpen? && waitErr.None? && !signaled)
      && ('\n' !in data && end.AtEof? ==> r.SendErr?)
      && ((waiterFirst || ('\n' !in data && end.StaysOpen?)) && (waitErr.Some? || signaled) ==> r.SendErr?)
  {
  }
}
