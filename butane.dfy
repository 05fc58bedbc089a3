/**
 * The Fedora CoreOS Butane sugar of config/fcos/v1_6/translate.go: `boot_device` (a mirrored
 * and/or LUKS-encrypted root disk) becomes Ignition disks, RAID arrays, LUKS volumes and
 * filesystems; partitions with reserved labels on disks that are not wiped are checked for
 * their numbers; and `grub.users` becomes a GRUB `user.cfg` on the boot filesystem.
 */
module FcosTranslate {
  import opened Wrappers
  import opened GoStrings

  const ReservedTypeGuid: string := "8DA63339-0007-60C0-C436-083AC8230908"
  const BiosTypeGuid: string := "21686148-6449-6E6F-744E-656564454649"
  const PrepTypeGuid: string := "9E1A2D38-C612-4316-AA26-8B49521E5A8B"
  const EspTypeGuid: string := "C12A7328-F81F-11D2-BA4B-00A0C93EC93B"

  /** The sizes of the version-1 partition layout, in MiB; they must not change. */
  const ReservedSizeMiB: int := 1
  const BiosSizeMiB: int := 1
  const PrepSizeMiB: int := 4
  const EspSizeMiB: int := 127
  const BootSizeMiB: int := 384

  const ByPartlabel: string := "/dev/disk/by-partlabel/"
  const MdBoot: string := "/dev/md/md-boot"
  const MdRoot: string := "/dev/md/md-root"
  const MapperRoot: string := "/dev/mapper/root"
  const PartlabelRoot: string := "/dev/disk/by-partlabel/root"
  const UnknownLayout: string := "unknown layout"
  const NilDereference: string := "runtime error: invalid memory address or nil pointer dereference"

  // ---------------------------------------------------------------- Ignition storage

  /** An Ignition partition; `number` 0 means "unset", as Go's zero value does. */
  datatype Partition = Partition(partLabel: Option<string>, number: int, sizeMiB: Option<int>, typeGuid: Option<string>)

  datatype Disk = Disk(device: string, wipeTable: Option<bool>, partitions: seq<Partition>)

  datatype Filesystem = Filesystem(device: string, format: Option<string>, fsLabel: Option<string>,
                                   path: Option<string>, wipeFilesystem: Option<bool>)

  datatype Raid = Raid(name: string, level: Option<string>, devices: seq<string>, options: seq<string>)

  /** How a LUKS volume is unlocked: by an IBM crypto express card, or by Clevis. The pin
    * settings themselves are copied field by field and are not modelled. */
  datatype Binding = CexBinding | ClevisBinding

  datatype Luks = Luks(name: string, luksLabel: Option<string>, device: Option<string>,
                       wipeVolume: Option<bool>, discard: Option<bool>, binding: Binding)

  /** A file whose contents are appended from a data URL; the contents are kept as text. */
  datatype File = File(path: string, contents: string)

  datatype Storage = Storage(disks: seq<Disk>, filesystems: seq<Filesystem>, raid: seq<Raid>,
                             luks: seq<Luks>, files: seq<File>)

  const EmptyStorage: Storage := Storage([], [], [], [], [])

  // ---------------------------------------------------------------- Butane input

  /** `boot_device.luks`: how many Tang servers are listed stands for the list itself. */
  datatype BootDeviceLuks = BootDeviceLuks(tpm2: Option<bool>, tangCount: nat, cexEnabled: Option<bool>,
                                           device: Option<string>, discard: Option<bool>)

  datatype BootDevice = BootDevice(layout: Option<string>, luks: BootDeviceLuks, mirrorDevices: seq<string>)

  datatype GrubUser = GrubUser(name: string, passwordHash: string)

  /** util.IsTrue: a set pointer to true. */
  predicate IsTrue(b: Option<bool>) {
    b == Some(true)
  }

  /** What processBootDevice does to the config: nothing, merge in a rendered fragment, or panic. */
  datatype Rendering = Unchanged | Rendered(storage: Storage) | Panicked(msg: string)

  // ---------------------------------------------------------------- the boot_device rules

  predicate WantLuks(l: BootDeviceLuks) {
    IsTrue(l.tpm2) || l.tangCount > 0 || IsTrue(l.cexEnabled)
  }

  /** Which of the BIOS, EFI and PReP partitions a layout asks for. */
  datatype Parts = Parts(bios: bool, efi: bool, prep: bool)

  /** The layout table; an unknown layout has none (processBootDevice panics on it). */
  function LayoutParts(layout: Option<string>): Option<Parts> {
    if layout.None? || layout.value == "x86_64" then Some(Parts(true, true, false))
    else if layout.value == "aarch64" then Some(Parts(false, true, false))
    else if layout.value == "ppc64le" then Some(Parts(false, false, true))
    else if layout.value in {"s390x-eckd", "s390x-virt", "s390x-zfcp"} then Some(Parts(false, false, false))
    else None
  }

  /** The label `<prefix>-<n>`. */
  function Label(prefix: string, n: nat): string {
    prefix + "-" + NatToString(n)
  }

  function PartlabelPath(name: string): string {
    ByPartlabel + name
  }

  function Sized(name: string, size: int, guid: string): Partition {
    Partition(Some(name), 0, Some(size), Some(guid))
  }

  function FirstPartition(n: nat, p: Parts): Partition {
    if p.bios then Sized(Label("bios", n), BiosSizeMiB, BiosTypeGuid)
    else if p.prep then Sized(Label("prep", n), PrepSizeMiB, PrepTypeGuid)
    else Sized(Label("reserved", n), ReservedSizeMiB, ReservedTypeGuid)
  }

  function SecondPartition(n: nat, p: Parts): Partition {
    if p.efi then Sized(Label("esp", n), EspSizeMiB, EspTypeGuid)
    else Sized(Label("reserved", n), ReservedSizeMiB, ReservedTypeGuid)
  }

  /** The `n`th mirror disk: wiped, with the four partitions of the version-1 layout. */
  function MirrorDisk(device: string, n: nat, p: Parts): Disk {
    Disk(device, Some(true), [FirstPartition(n, p), SecondPartition(n, p),
      Partition(Some(Label("boot", n)), 0, Some(BootSizeMiB), None),
      Partition(Some(Label("root", n)), 0, None, None)])
  }

  function MirrorDisks(devices: seq<string>, p: Parts): (disks: seq<Disk>)
    ensures |disks| == |devices|
    ensures forall i :: 0 <= i < |devices| ==> disks[i] == MirrorDisk(devices[i], i + 1, p)
  {
    seq(|devices|, i requires 0 <= i < |devices| => MirrorDisk(devices[i], i + 1, p))
  }

  function EspFilesystem(n: nat): Filesystem {
    Filesystem(PartlabelPath(Label("esp", n)), Some("vfat"), Some(Label("esp", n)), None, Some(true))
  }

  /** The ESP filesystems of the first `count` mirror disks, when the layout has an ESP. */
  function EspFilesystems(count: nat, efi: bool): (fs: seq<Filesystem>)
    ensures |fs| == if efi then count else 0
    ensures efi ==> forall i :: 0 <= i < count ==> fs[i] == EspFilesystem(i + 1)
  {
    if efi then seq(count, i requires 0 <= i < count => EspFilesystem(i + 1)) else []
  }

  const BootFilesystem: Filesystem := Filesystem(MdBoot, Some("ext4"), Some("boot"), None, Some(true))

  /** The members of a RAID array: partition `<prefix>-i` of each of the `count` disks. */
  function RaidDeviceList(prefix: string, count: nat): (devices: seq<string>)
    ensures |devices| == count
    ensures forall i :: 0 <= i < count ==> devices[i] == PartlabelPath(Label(prefix, i + 1))
  {
    seq(count, i requires 0 <= i < count => PartlabelPath(Label(prefix, i + 1)))
  }

  /** `md-boot` with its superblock at the end of the partition, and `md-root`. */
  function MirrorRaid(count: nat): seq<Raid> {
    [Raid("md-boot", Some("raid1"), RaidDeviceList("boot", count), ["--metadata=1.0"]),
     Raid("md-root", Some("raid1"), RaidDeviceList("root", count), [])]
  }

  /** The device LUKS encrypts; None where processBootDevice dereferences an unset device. */
  function LuksDevice(layout: Option<string>, device: Option<string>, wantMirror: bool): Option<string> {
    if layout == Some("s390x-eckd") then (if device.Some? then Some(device.value + "2") else None)
    else if layout == Some("s390x-zfcp") then (if device.Some? then Some(device.value + "4") else None)
    else if wantMirror then Some(MdRoot)
    else Some(PartlabelRoot)
  }

  function LuksEntry(l: BootDeviceLuks, device: string): Luks {
    Luks("root", Some("luks-root"), Some(device), Some(true), l.discard,
         if IsTrue(l.cexEnabled) then CexBinding else ClevisBinding)
  }

  function RootFilesystem(wantLuks: bool): Filesystem {
    Filesystem(if wantLuks then MapperRoot else MdRoot, Some("xfs"), Some("root"), None, Some(true))
  }

  /** The storage fragment `boot_device` stands for, built part by part. */
  function BootDeviceRendering(bd: BootDevice): Rendering {
    var wantLuks := WantLuks(bd.luks);
    var wantMirror := |bd.mirrorDevices| > 0;
    if !wantLuks && !wantMirror then Unchanged
    else if LayoutParts(bd.layout).None? then Panicked(UnknownLayout)
    else if wantLuks && LuksDevice(bd.layout, bd.luks.device, wantMirror).None? then Panicked(NilDereference)
    else
      var p := LayoutParts(bd.layout).value;
      var k := |bd.mirrorDevices|;
      var mirrorFs := if wantMirror then EspFilesystems(k, p.efi) + [BootFilesystem] else [];
      Rendered(Storage(
        disks := MirrorDisks(bd.mirrorDevices, p),
        filesystems := mirrorFs + [RootFilesystem(wantLuks)],
        raid := if wantMirror then MirrorRaid(k) else [],
        luks := if wantLuks then [LuksEntry(bd.luks, LuksDevice(bd.layout, bd.luks.device, wantMirror).value)] else [],
        files := []))
  }

  // ---------------------------------------------------------------- processBootDevice

  /** processBootDevice: decides the wanted partitions from the layout, partitions each mirror
    * disk in turn, then adds the RAID arrays, the LUKS volume and the root filesystem. */
  method ProcessBootDevice(bd: BootDevice) returns (out: Rendering)
    ensures out == BootDeviceRendering(bd)
  {
    var wantLuks := IsTrue(bd.luks.tpm2) || bd.luks.tangCount > 0 || IsTrue(bd.luks.cexEnabled);
    var wantMirror := |bd.mirrorDevices| > 0;
    if !wantLuks && !wantMirror {
      return Unchanged;
    }
    var wantBIOSPart, wantEFIPart, wantPRePPart := false, false, false;
    var layout := bd.layout;
    if layout.None? || layout.value == "x86_64" {
      wantBIOSPart, wantEFIPart := true, true;
    } else if layout.value == "aarch64" {
      wantEFIPart := true;
    } else if layout.value == "ppc64le" {
      wantPRePPart := true;
    } else if layout.value == "s390x-eckd" || layout.value == "s390x-virt" || layout.value == "s390x-zfcp" {
    } else {
      return Panicked(UnknownLayout);
    }
    var parts := Parts(wantBIOSPart, wantEFIPart, wantPRePPart);
    assert LayoutParts(layout) == Some(parts);
    var disks: seq<Disk> := [];
    var filesystems: seq<Filesystem> := [];
    var raid: seq<Raid> := [];
    if wantMirror {
      disks, filesystems := PartitionMirror(bd.mirrorDevices, parts);
      var bootDevices := RaidDevices("boot", |disks|);
      var rootDevices := RaidDevices("root", |disks|);
      raid := [Raid("md-boot", Some("raid1"), bootDevices[..], ["--metadata=1.0"]),
               Raid("md-root", Some("raid1"), rootDevices[..], [])];
      filesystems := filesystems + [BootFilesystem];
    }
    var luks: seq<Luks> := [];
    if wantLuks {
      var luksDevice: string;
      if layout.Some? && layout.value == "s390x-eckd" {
        if bd.luks.device.None? {
          return Panicked(NilDereference);
        }
        luksDevice := bd.luks.device.value + "2";
      } else if layout.Some? && layout.value == "s390x-zfcp" {
        if bd.luks.device.None? {
          return Panicked(NilDereference);
        }
        luksDevice := bd.luks.device.value + "4";
      } else if wantMirror {
        luksDevice := MdRoot;
      } else {
        luksDevice := PartlabelRoot;
      }
      luks := [Luks("root", Some("luks-root"), Some(luksDevice), Some(true), bd.luks.discard,
                    if IsTrue(bd.luks.cexEnabled) then CexBinding else ClevisBinding)];
    }
    var rootDevice := if wantLuks then MapperRoot else MdRoot;
    filesystems := filesystems + [Filesystem(rootDevice, Some("xfs"), Some("root"), None, Some(true))];
    out := Rendered(Storage(disks, filesystems, raid, luks, []));
  }

  /** The per-device loop: one disk per mirror device, and its ESP filesystem when wanted. */
  method PartitionMirror(devices: seq<string>, p: Parts) returns (disks: seq<Disk>, filesystems: seq<Filesystem>)
    ensures disks == MirrorDisks(devices, p)
    ensures filesystems == EspFilesystems(|devices|, p.efi)
  {
    disks := [];
    filesystems := [];
    for i := 0 to |devices|
      invariant disks == MirrorDisks(devices[..i], p)
      invariant filesystems == EspFilesystems(i, p.efi)
    {
      var labelIndex := |disks| + 1;
      var disk := PartitionDisk(devices[i], labelIndex, p);
      assert devices[..i + 1] == devices[..i] + [devices[i]];
      disks := disks + [disk];
      if p.efi {
        filesystems := filesystems + [EspFilesystem(labelIndex)];
      }
    }
    assert devices[..|devices|] == devices;
  }

  /** The partitions of one mirror disk, appended in layout order. */
  method PartitionDisk(device: string, labelIndex: nat, p: Parts) returns (disk: Disk)
    ensures disk == MirrorDisk(device, labelIndex, p)
  {
    disk := Disk(device, Some(true), []);
    if p.bios {
      disk := disk.(partitions := disk.partitions + [Sized(Label("bios", labelIndex), BiosSizeMiB, BiosTypeGuid)]);
    } else if p.prep {
      disk := disk.(partitions := disk.partitions + [Sized(Label("prep", labelIndex), PrepSizeMiB, PrepTypeGuid)]);
    } else {
      disk := disk.(partitions := disk.partitions + [Sized(Label("reserved", labelIndex), ReservedSizeMiB, ReservedTypeGuid)]);
    }
    if p.efi {
      disk := disk.(partitions := disk.partitions + [Sized(Label("esp", labelIndex), EspSizeMiB, EspTypeGuid)]);
    } else {
      disk := disk.(partitions := disk.partitions + [Sized(Label("reserved", labelIndex), ReservedSizeMiB, ReservedTypeGuid)]);
    }
    disk := disk.(partitions := disk.partitions + [Partition(Some(Label("boot", labelIndex)), 0, Some(BootSizeMiB), None),
                                                    Partition(Some(Label("root", labelIndex)), 0, None, None)]);
  }

  /** The `raidDevices` closure: an array filled by index with the partitions `<prefix>-1..count`. */
  method RaidDevices(prefix: string, count: nat) returns (ret: array<string>)
    ensures fresh(ret) && ret[..] == RaidDeviceList(prefix, count)
  {
    ret := new string[count](_ => "");
    for i := 0 to count
      invariant forall j :: 0 <= j < i ==> ret[j] == PartlabelPath(Label(prefix, j + 1))
    {
      ret[i] := PartlabelPath(Label(prefix, i + 1));
    }
  }

  // ---------------------------------------------------------------- properties of boot_device

  /** The config is left alone exactly when neither LUKS nor mirroring is asked for, and
    * panics only on an unknown layout or an unset s390x LUKS device. */
  lemma RenderingCases(bd: BootDevice)
    ensures BootDeviceRendering(bd).Unchanged? <==> !WantLuks(bd.luks) && bd.mirrorDevices == []
    ensures BootDeviceRendering(bd).Panicked? ==>
      LayoutParts(bd.layout).None? || (WantLuks(bd.luks) && bd.luks.device.None? && bd.layout in {Some("s390x-eckd"), Some("s390x-zfcp")})
    ensures (WantLuks(bd.luks) || bd.mirrorDevices != []) && LayoutParts(bd.layout).None? ==>
      BootDeviceRendering(bd) == Panicked(UnknownLayout)
  {
  }

  /** The layout table: x86_64 (also the default) has BIOS and EFI, aarch64 EFI, ppc64le PReP,
    * the s390x layouts none; BIOS and PReP never come together. */
  lemma LayoutTable(layout: Option<string>)
    ensures LayoutParts(None) == Some(Parts(true, true, false))
    ensures LayoutParts(Some("aarch64")) == Some(Parts(false, true, false))
    ensures LayoutParts(Some("ppc64le")) == Some(Parts(false, false, true))
    ensures LayoutParts(Some("s390x-virt")) == Some(Parts(false, false, false))
    ensures LayoutParts(layout).Some? ==> !(LayoutParts(layout).value.bios && LayoutParts(layout).value.prep)
    ensures LayoutParts(layout).Some? <==>
      layout.None? || layout.value in {"x86_64", "aarch64", "ppc64le", "s390x-eckd", "s390x-virt", "s390x-zfcp"}
  {
  }

  /** Mirror disk `i` is device `i`, wiped, with exactly four partitions labelled `-<i+1>`:
    * bios/prep/reserved, esp/reserved, boot of 384 MiB and a root that takes the rest. */
  lemma MirrorDiskShape(devices: seq<string>, p: Parts, i: nat)
    requires i < |devices|
    ensures var d := MirrorDisks(devices, p)[i];
      && d.device == devices[i] && IsTrue(d.wipeTable) && |d.partitions| == 4
      && d.partitions[0].partLabel == Some(Label(if p.bios then "bios" else if p.prep then "prep" else "reserved", i + 1))
      && d.partitions[0].sizeMiB == Some(if p.bios then 1 else if p.prep then 4 else 1)
      && d.partitions[1].partLabel == Some(Label(if p.efi then "esp" else "reserved", i + 1))
      && d.partitions[1].sizeMiB == Some(if p.efi then 127 else 1)
      && d.partitions[2].partLabel == Some(Label("boot", i + 1)) && d.partitions[2].sizeMiB == Some(384)
      && d.partitions[3].partLabel == Some(Label("root", i + 1)) && d.partitions[3].sizeMiB.None?
  {
  }

  /** Every member of the two arrays is the boot (resp. root) partition of the mirror disk at
    * the same position, and every ESP filesystem sits on the ESP partition of its disk. */
  lemma RaidMembersArePartitions(devices: seq<string>, p: Parts, j: nat)
    requires j < |devices|
    ensures var raid := MirrorRaid(|devices|); var d := MirrorDisks(devices, p)[j];
      && |raid| == 2 && raid[0].name == "md-boot" && raid[1].name == "md-root"
      && raid[0].options == ["--metadata=1.0"] && raid[1].options == []
      && raid[0].level == Some("raid1") && raid[1].level == Some("raid1")
      && raid[0].devices[j] == PartlabelPath(d.partitions[2].partLabel.value)
      && raid[1].devices[j] == PartlabelPath(d.partitions[3].partLabel.value)
    ensures p.efi ==> EspFilesystems(|devices|, true)[j].device == PartlabelPath(MirrorDisks(devices, p)[j].partitions[1].partLabel.value)
  {
  }

  /** Labels of different mirror disks differ, so no two RAID members coincide. */
  lemma RaidMembersDistinct(prefix: string, count: nat, i: nat, j: nat)
    requires i < count && j < count && i != j
    ensures RaidDeviceList(prefix, count)[i] != RaidDeviceList(prefix, count)[j]
  {
    var pre := ByPartlabel + prefix + "-";
    assert RaidDeviceList(prefix, count)[i] == pre + NatToString(i + 1);
    assert RaidDeviceList(prefix, count)[j] == pre + NatToString(j + 1);
    if pre + NatToString(i + 1) == pre + NatToString(j + 1) {
      SameTail(pre, NatToString(i + 1), NatToString(j + 1));
      NatToStringInjective(i + 1, j + 1);
    }
  }

  lemma SameTail(pre: string, x: string, y: string)
    requires pre + x == pre + y
    ensures x == y
  {
    assert x == (pre + x)[|pre|..];
    assert y == (pre + y)[|pre|..];
  }

  /** The filesystems come in the order ESPs, boot, root; root is last, on the LUKS mapping
    * when encrypted and on md-root otherwise, and formatted as wiped xfs. */
  lemma FilesystemOrder(bd: BootDevice)
    requires BootDeviceRendering(bd).Rendered?
    ensures var fs := BootDeviceRendering(bd).storage.filesystems; var k := |bd.mirrorDevices|;
      var efi := LayoutParts(bd.layout).value.efi;
      && |fs| == (if k > 0 then (if efi then k else 0) + 2 else 1)
      && fs[|fs| - 1].device == (if WantLuks(bd.luks) then MapperRoot else MdRoot)
      && fs[|fs| - 1].format == Some("xfs") && fs[|fs| - 1].fsLabel == Some("root") && IsTrue(fs[|fs| - 1].wipeFilesystem)
      && (k > 0 ==> fs[|fs| - 2] == BootFilesystem)
      && (k > 0 && efi ==> forall i :: 0 <= i < k ==> fs[i] == EspFilesystem(i + 1))
  {
  }

  /** Encryption yields exactly one volume, `root` labelled `luks-root`, wiped, on the device
    * the layout and mirroring choose, unlocked by Cex when Cex is enabled. */
  lemma LuksVolume(bd: BootDevice)
    requires BootDeviceRendering(bd).Rendered? && WantLuks(bd.luks)
    ensures var l := BootDeviceRendering(bd).storage.luks;
      && |l| == 1 && l[0].name == "root" && l[0].luksLabel == Some("luks-root") && IsTrue(l[0].wipeVolume)
      && (l[0].binding == CexBinding <==> IsTrue(bd.luks.cexEnabled))
      && l[0].device == Some(
        if bd.layout == Some("s390x-eckd") then bd.luks.device.value + "2"
        else if bd.layout == Some("s390x-zfcp") then bd.luks.device.value + "4"
        else if bd.mirrorDevices != [] then MdRoot
        else PartlabelRoot)
  {
  }

  /** The disks boot_device renders are all wiped, so the label check never warns about them. */
  lemma MirrorDisksRaiseNoWarning(devices: seq<string>, p: Parts)
    ensures LabelWarnings(MirrorDisks(devices, p)) == []
  {
    var disks := MirrorDisks(devices, p);
    assert forall i :: 0 <= i < |disks| ==> IsTrue(disks[i].wipeTable);
    NoWarningsOnWipedDisks(disks);
  }

  lemma {:induction false} NoWarningsOnWipedDisks(disks: seq<Disk>)
    requires forall i :: 0 <= i < |disks| ==> IsTrue(disks[i].wipeTable)
    ensures LabelWarnings(disks) == []
    decreases |disks|
  {
    if disks != [] {
      NoWarningsOnWipedDisks(disks[..|disks| - 1]);
    }
  }

  // ---------------------------------------------------------------- the partition-label check

  /** The partition number a reserved label must have. */
  function ReservedNumber(name: string): Option<int> {
    if name == "BIOS-BOOT" || name == "PowerPC-PReP-boot" then Some(1)
    else if name == "EFI-SYSTEM" then Some(2)
    else if name == "boot" then Some(3)
    else if name == "root" then Some(4)
    else None
  }

  /** A partition whose label is reserved for another number. */
  predicate WrongNumber(p: Partition) {
    p.partLabel.Some? && ReservedNumber(p.partLabel.value).Some? && p.number != ReservedNumber(p.partLabel.value).value
  }

  /** The condition as the translator spells it, one disjunct per reserved label. */
  predicate WrongNumberAsWritten(p: Partition) {
    p.partLabel.Some? &&
    ((p.partLabel.value == "BIOS-BOOT" && p.number != 1) || (p.partLabel.value == "PowerPC-PReP-boot" && p.number != 1)
     || (p.partLabel.value == "EFI-SYSTEM" && p.number != 2) || (p.partLabel.value == "boot" && p.number != 3)
     || (p.partLabel.value == "root" && p.number != 4))
  }

  lemma WrongNumberTable(p: Partition)
    ensures WrongNumber(p) <==> WrongNumberAsWritten(p)
  {
  }

  /** The position (disk, partition) of a warning. */
  datatype Position = Position(disk: nat, partition: nat)

  function PartitionWarnings(i: nat, parts: seq<Partition>): seq<Position>
    decreases |parts|
  {
    if parts == [] then []
    else
      var j := |parts| - 1;
      PartitionWarnings(i, parts[..j]) + (if WrongNumber(parts[j]) then [Position(i, j)] else [])
  }

  function DiskWarnings(i: nat, d: Disk): seq<Position> {
    if IsTrue(d.wipeTable) then [] else PartitionWarnings(i, d.partitions)
  }

  /** The warnings of the check, in the order the loops find them. */
  function LabelWarnings(disks: seq<Disk>): seq<Position>
    decreases |disks|
  {
    if disks == [] then []
    else LabelWarnings(disks[..|disks| - 1]) + DiskWarnings(|disks| - 1, disks[|disks| - 1])
  }

  /** The check after processBootDevice: for each disk whose table is not wiped, a warning at
    * each partition that carries a reserved label at another number. */
  method CheckPartitionLabels(disks: seq<Disk>) returns (warnings: seq<Position>)
    ensures warnings == LabelWarnings(disks)
  {
    warnings := [];
    for i := 0 to |disks|
      invariant warnings == LabelWarnings(disks[..i])
    {
      assert disks[..i + 1][..i] == disks[..i];
      if !IsTrue(disks[i].wipeTable) {
        var parts := disks[i].partitions;
        for j := 0 to |parts|
          invariant warnings == LabelWarnings(disks[..i]) + PartitionWarnings(i, parts[..j])
        {
          assert parts[..j + 1][..j] == parts[..j];
          if parts[j].partLabel.Some? && WrongNumberAsWritten(parts[j]) {
            WrongNumberTable(parts[j]);
            warnings := warnings + [Position(i, j)];
          } else {
            WrongNumberTable(parts[j]);
          }
        }
        assert parts[..|parts|] == parts;
      }
    }
    assert disks[..|disks|] == disks;
  }

  lemma {:induction false} PartitionWarningsExact(i: nat, parts: seq<Partition>, w: Position)
    ensures w in PartitionWarnings(i, parts) <==> w.disk == i && w.partition < |parts| && WrongNumber(parts[w.partition])
    decreases |parts|
  {
    if parts != [] {
      var j := |parts| - 1;
      PartitionWarningsExact(i, parts[..j], w);
      if w.partition < j {
        assert parts[..j][w.partition] == parts[w.partition];
      }
    }
  }

  /** A warning is raised at (i, j) exactly when disk i is not wiped and its partition j carries
    * a reserved label at another number. */
  lemma {:induction false} LabelWarningsExact(disks: seq<Disk>, w: Position)
    ensures w in LabelWarnings(disks) <==>
      w.disk < |disks| && !IsTrue(disks[w.disk].wipeTable)
      && w.partition < |disks[w.disk].partitions| && WrongNumber(disks[w.disk].partitions[w.partition])
    decreases |disks|
  {
    if disks != [] {
      var n := |disks| - 1;
      LabelWarningsExact(disks[..n], w);
      PartitionWarningsExact(n, disks[n].partitions, w);
      if w.disk < n {
        assert disks[..n][w.disk] == disks[w.disk];
      }
    }
  }

  // ---------------------------------------------------------------- grub.users

  const GrubHeader: string := "# Generated by Butane"
  const UserCfgPath: string := "/boot/grub2/user.cfg"

  function UserNames(users: seq<GrubUser>): (names: seq<string>)
    ensures |names| == |users| && forall i :: 0 <= i < |users| ==> names[i] == users[i].name
  {
    seq(|users|, i requires 0 <= i < |users| => users[i].name)
  }

  function PasswordLine(u: GrubUser): string {
    "password_pbkdf2 " + u.name + " " + u.passwordHash
  }

  function PasswordLines(users: seq<GrubUser>): (lines: seq<string>)
    ensures |lines| == |users| && forall i :: 0 <= i < |users| ==> lines[i] == PasswordLine(users[i])
  {
    seq(|users|, i requires 0 <= i < |users| => PasswordLine(users[i]))
  }

  function SuperusersLine(users: seq<GrubUser>): string {
    "set superusers=\"" + Join(UserNames(users), " ") + "\""
  }

  /** The text of `user.cfg`: the header, a blank line, the superusers, one password line per
    * user, and a final newline. */
  function GrubConfig(users: seq<GrubUser>): string {
    GrubHeader + "\n\n" + SuperusersLine(users) + "\n" + Join(PasswordLines(users), "\n") + "\n"
  }

  /** buildGrubConfig: collects the user names and the password commands in one loop, then
    * joins them. */
  method BuildGrubConfig(users: seq<GrubUser>) returns (cfg: string)
    ensures cfg == GrubConfig(users)
  {
    var allUsers: seq<string> := [];
    var cmds: seq<string> := [];
    for i := 0 to |users|
      invariant allUsers == UserNames(users[..i]) && cmds == PasswordLines(users[..i])
    {
      allUsers := allUsers + [users[i].name];
      cmds := cmds + ["password_pbkdf2 " + users[i].name + " " + users[i].passwordHash];
    }
    assert users[..|users|] == users;
    var superUserCmd := "set superusers=\"" + Join(allUsers, " ") + "\"\n";
    cfg := GrubHeader + "\n\n" + superUserCmd + Join(cmds, "\n") + "\n";
  }

  /** handleUserGrubCfg: nothing without users; otherwise the boot filesystem mounted at /boot
    * and `user.cfg` holding the generated configuration. */
  function UserGrubCfg(users: seq<GrubUser>): (s: Storage)
    ensures users == [] ==> s == EmptyStorage
    ensures users != [] ==> |s.files| == 1 && s.files[0] == File(UserCfgPath, GrubConfig(users))
    ensures users != [] ==> |s.filesystems| == 1 && s.filesystems[0].path == Some("/boot")
    ensures users != [] ==> s.filesystems[0].device == "/dev/disk/by-label/boot" && s.filesystems[0].format == Some("ext4")
    ensures s.disks == [] && s.raid == [] && s.luks == []
  {
    if users == [] then EmptyStorage
    else Storage([], [Filesystem("/dev/disk/by-label/boot", Some("ext4"), None, Some("/boot"), None)], [], [], [File(UserCfgPath, GrubConfig(users))])
  }

  lemma {:induction false} JoinAppend(xs: seq<string>, ys: seq<string>, sep: string)
    requires xs != [] && ys != []
    ensures Join(xs + ys, sep) == Join(xs, sep) + sep + Join(ys, sep)
    decreases |xs|
  {
    if |xs| == 1 {
      assert (xs + ys)[1..] == ys;
    } else {
      JoinAppend(xs[1..], ys, sep);
      assert (xs + ys)[1..] == xs[1..] + ys;
    }
  }

  /** No line break inside any user's name or hash. */
  predicate SingleLine(users: seq<GrubUser>) {
    forall i :: 0 <= i < |users| ==> '\n' !in users[i].name && '\n' !in users[i].passwordHash
  }

  /** Read line by line, `user.cfg` is the header, a blank line, the superusers line, the
    * password line of each user in order, and the empty rest after the final newline. */
  lemma GrubConfigLines(users: seq<GrubUser>)
    requires users != [] && SingleLine(users)
    ensures Split(GrubConfig(users), '\n') == [GrubHeader, "", SuperusersLine(users)] + PasswordLines(users) + [""]
  {
    var lines := [GrubHeader, "", SuperusersLine(users)] + PasswordLines(users) + [""];
    GrubConfigIsJoin(users);
    GrubLinesFree(users);
    SplitJoin(lines, '\n');
  }

  /** `user.cfg` is its lines joined by newlines. */
  lemma GrubConfigIsJoin(users: seq<GrubUser>)
    requires users != []
    ensures Join([GrubHeader, "", SuperusersLine(users)] + PasswordLines(users) + [""], "\n") == GrubConfig(users)
  {
    var head := [GrubHeader, "", SuperusersLine(users)];
    var cmds := PasswordLines(users);
    JoinAppend(head, cmds, "\n");
    JoinAppend(head + cmds, [""], "\n");
    assert Join([SuperusersLine(users)], "\n") == SuperusersLine(users);
    assert Join(["", SuperusersLine(users)], "\n") == "" + "\n" + SuperusersLine(users);
    assert head[1..] == ["", SuperusersLine(users)];
    assert Join(head, "\n") == GrubHeader + "\n" + ("" + "\n" + SuperusersLine(users));
  }

  lemma GrubLinesFree(users: seq<GrubUser>)
    requires SingleLine(users)
    ensures Free([GrubHeader, "", SuperusersLine(users)] + PasswordLines(users) + [""], '\n')
  {
    var lines := [GrubHeader, "", SuperusersLine(users)] + PasswordLines(users) + [""];
    JoinFreeOf(UserNames(users), " ", '\n');
    assert '\n' !in SuperusersLine(users);
    forall i | 0 <= i < |lines| ensures '\n' !in lines[i] {
      if 3 <= i < 3 + |users| {
        assert lines[i] == PasswordLine(users[i - 3]);
      }
    }
  }

  lemma {:induction false} JoinFreeOf(xs: seq<string>, sep: string, d: char)
    requires d !in sep && forall i :: 0 <= i < |xs| ==> d !in xs[i]
    ensures d !in Join(xs, sep)
    decreases |xs|
  {
    if |xs| > 1 {
      JoinFreeOf(xs[1..], sep, d);
    }
  }
}
