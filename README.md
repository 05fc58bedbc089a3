# Metal installs, QEMU cluster options, disk specs and Butane boot devices

This project models the decision logic inside a VM-provisioning and install harness for
Fedora CoreOS-style systems, and proves properties of it. The harness is mostly process,
file and network plumbing. The model keeps four pieces of logic and turns the plumbing
around them into explicit inputs:

- **Metal installs** (`mantle/platform/metal.go`). This covers the per-architecture PXE
  boot-parameter table and kernel-argument rendering. It also covers the QEMU
  `-device`/`-netdev` strings, the installer directive built for ISO installs, and the
  outcome rule of the boot-started watchers. Finally it covers temp-directory ownership
  across `setup`, `runPXE` and `InstallViaISOEmbed`, and `InstalledMachine.Destroy`.
  - Module `Metal` holds the pure tables and strings.
  - Module `MetalInstall` holds the stateful flows.
  - The host is a `Host` object. It has a set of directories, a map of files and a log of
    the commands run.
  - The QEMU builder and instance are small classes.
  - Every I/O step fails exactly when the environment's `failing` map names it.
- **QEMU cluster option layering** (`mantle/platform/machine/qemu/cluster.go`), module
  `QemuCluster`.
  - `NewMachineWithQemuOptions` fills a `QemuBuilder` object step by step. The values come
    from the explicit options, the flight options and the builder defaults.
  - The `tearingDown` flag of `Cluster` gates the exit watcher's log line.
- **Disk-spec parser** (`mantle/util/common.go`, `ParseDiskSpec`), module `DiskSpec`. It
  parses `<size>G[:k=v,k2,...]` into a size and an option map. `Format` renders a spec, and
  `ParseFormat` proves that parsing what it renders gives back the same size and options.
- **Butane boot-device desugaring and GRUB user config**
  (`vendor/github.com/coreos/butane/config/fcos/v1_6/translate.go`), module `FcosTranslate`.
  - `processBootDevice` turns the layout, mirror devices and LUKS settings into disks,
    partitions, RAID arrays, one LUKS volume and filesystems.
  - The model also covers the reserved-partition-number warning check, `handleUserGrubCfg`
    and `buildGrubConfig`.

Two helper modules support the rest:

- `Wrappers` defines `Option`, `Result` and `Lookup`, a Go map lookup with its `ok` flag.
- `GoStrings` defines the Go library functions the core calls:
  - `strings.Split`, `SplitN(…, 2)`, `Join`, `TrimSuffix` and `TrimSpace`;
  - `strconv.ParseInt(…, 10, 32)` and `filepath.Join`;
  - `%d` formatting.

Each stateful operation is a method. It is proved against a function of its inputs and
the old state, and lemmas prove what the source promises about that function.

## Model

| member | source | states |
|---|---|---|
| GoStrings.Split | mantle/util/common.go:131 | strings.Split always yields at least one piece |
| GoStrings.JoinSplit | mantle/util/common.go:131 | joining the pieces of a split with the separator gives back the original string |
| GoStrings.SplitJoin | mantle/util/common.go:144 | splitting a join of separator-free pieces gives back exactly those pieces |
| GoStrings.SplitPiecesAreFree | mantle/util/common.go:131 | no piece of a split contains the separator |
| GoStrings.SplitAppend | mantle/util/common.go:131 | splitting `a + sep + b` gives `a` followed by the pieces of `b` |
| GoStrings.SplitFree | mantle/util/common.go:140-141 | a string without the separator splits into itself alone |
| GoStrings.SplitFirst | mantle/util/common.go:145 | SplitN(…, 2) gives one piece exactly when the separator is absent; otherwise the first piece is separator-free and the two pieces with the separator rebuild the input |
| GoStrings.TrimSuffix | mantle/util/common.go:159 | one trailing `G` is removed exactly when present, otherwise the string is unchanged |
| GoStrings.TrimSpace | mantle/platform/metal.go:499 | the result is the slice of the input that starts after its leading white space and has only white space after it, and it neither starts nor ends with white space; an all-white-space input gives the empty string |
| GoStrings.ParseInt32 | mantle/util/common.go:161 | a successful parse lies in the signed 32-bit range and needs a non-empty input |
| GoStrings.ParseInt32OfNatToString | mantle/platform/machine/qemu/cluster.go:176 | a `%d`-formatted 32-bit-range number parses back to itself |
| GoStrings.NatToStringInjective | mantle/platform/machine/qemu/cluster.go:126 | `%d` formatting maps different numbers to different strings, so hostnames `qemu<serial>` are distinct |
| DiskSpec.ParseDiskSpec | mantle/util/common.go:129-167 | the loop-based parser returns exactly the specification `Parse` |
| DiskSpec.FillOptions | mantle/util/common.go:144-153 | the option loop fills the map the specification `OptionMap` describes |
| DiskSpec.ParseErrors | mantle/util/common.go:132-156 | the empty-size, missing-`G` and too-many-colons errors each happen exactly under their condition |
| DiskSpec.EmptySizeIsZero | mantle/util/common.go:132-158 | an empty size is an error unless allowed, in which case the size is 0 |
| DiskSpec.TwoColonsRejected | mantle/util/common.go:154-156 | a spec with two colons is an error |
| DiskSpec.NoColonNoOptions | mantle/util/common.go:140-141 | a successful parse of a spec without a colon has an empty option map |
| DiskSpec.ParseWithOptions | mantle/util/common.go:142-164 | a well-formed `<n>G:<opts>` yields the parsed size and the map of its comma-separated options, or the wrapped size-conversion error |
| DiskSpec.ParseSizeInRange | mantle/util/common.go:161 | a parsed size lies in the signed 32-bit range |
| DiskSpec.BareGRejected | mantle/util/common.go:159-164 | `G` alone fails with a syntax error on the empty number |
| DiskSpec.FiveG | mantle/util/common.go:158-161 | the size part `5G` converts to 5 after the `G` is trimmed |
| DiskSpec.OptionMapKeys | mantle/util/common.go:144-152 | the option map's keys are exactly the keys of the options, where a key is the text before the first `=` or the whole option |
| DiskSpec.OptionMapLastValue | mantle/util/common.go:151 | a key maps to the value of its last occurrence |
| DiskSpec.OptionMapLastWins | mantle/util/common.go:144-152 | both of the above in one statement: key set and last-writer-wins value |
| DiskSpec.RenderedOptionParses | mantle/util/common.go:145-152 | an option rendered as `k=v` or `k` splits back into its key and value |
| DiskSpec.OptionMapOfRendered | mantle/util/common.go:144-152 | the map parsed from rendered options is the map the options denote |
| DiskSpec.ParseFormat | mantle/util/common.go:129-167 | parsing `Format(size, opts)` yields that size and those options (round trip) |
| DiskSpec.TrailingColonSetsEmptyKey | mantle/util/common.go:145-149 | `5G:` is accepted with the empty key, the input that shows the empty-option branch is dead |
| DiskSpec.DoubleCommaSetsEmptyKey | mantle/util/common.go:145-149 | `5G:a,,b` is accepted with an empty key |
| DiskSpec.StrictRejectsEmptyOptions | mantle/util/common.go:146-147 | the corrected parser never accepts an empty option and agrees with the original everywhere else |
| DiskSpec.StrictRejectsTrailingColon | mantle/util/common.go:146-147 | the corrected parser rejects `5G:` with the empty-option error |
| DiskSpec.StrictChecksOptionsBeforeSize | mantle/util/common.go:136-147 | the corrected parser checks the size's form first and reports an empty option before it converts the number, in the source's order: `xG:` gives the empty-option error, not a conversion error |
| Metal.ConsoleKernelArgument | mantle/platform/metal.go:49-54 | a console exists exactly for the four known architectures |
| Metal.ArchPxeSetup | mantle/platform/metal.go:283-316 | the arch switch succeeds exactly for the four architectures; the TFTP address is 10.0.2.2 exactly on s390x and 192.168.76.2 otherwise; GRUB exactly when a boot file is preset; a boot index exactly for aarch64, s390x and UEFI x86_64; unknown architectures get the unsupported-arch error |
| Metal.PxeTableRows | mantle/platform/metal.go:283-314 | BIOS x86_64 is pxe on e1000 with the syslinux path and no boot index; aarch64 grub on virtio-net-pci index 1; ppc64le grub on virtio-net-pci without index; s390x pxe on virtio-net-ccw index 1 at 10.0.2.2 |
| Metal.X86UefiUsesGrub | mantle/platform/metal.go:286-294 | x86_64 with `uefi` firmware boots grub from `/boot/grub2/grubx64.efi` on e1000 with boot index 2 |
| Metal.UnsupportedArchMessageGarbled | mantle/platform/metal.go:315 | the message as written renders `%!s(MISSING)` before the architecture and differs from the intended message |
| Metal.SprintfMissingString | mantle/platform/metal.go:315 | a `%s` verb without an operand renders as `%!s(MISSING)` |
| Metal.RenderBaseKargs | mantle/platform/metal.go:350-352 | the four base kargs followed by `console=<arch console>` |
| Metal.RenderDebugKargs | mantle/platform/metal.go:371-379 | exactly four fixed systemd debug args when the debug variable is set, none otherwise |
| Metal.RenderInstallKargs | mantle/platform/metal.go:354-365 | install device, then ignition URL, then the image URL only when online, then `coreos.inst.insecure` last and only when insecure |
| Metal.RootfsKargs | mantle/platform/metal.go:390-392 | the rootfs URL karg is present exactly when rootfs is non-empty and not appended to the initrd |
| Metal.PxeKargsOrder | mantle/platform/metal.go:568-572 | the PXE kernel line is base kargs, console, debug kargs, caller kargs, live ignition URL, install kargs, then the optional rootfs URL, each at its position |
| Metal.PxeKargsLineSplits | mantle/platform/metal.go:393 | the space-joined kernel line splits back into exactly the argument list |
| Metal.NetArgs | mantle/platform/metal.go:534-545 | `-boot once=n` is appended exactly when there is no boot index, followed by the `-device` and `-netdev` pairs |
| Metal.NetdevOptions | mantle/platform/metal.go:534-539 | the device string is `<device>`, `netdev=mynet0`, `mac=52:54:00:12:34:56`, plus `bootindex=N` exactly when a boot index is set |
| Metal.UserNetdevOptions | mantle/platform/metal.go:541-544 | the user netdev is `user,id=mynet0,tftp=…,bootfile=…`, plus the 192.168.76.0/24 net and DHCP start exactly when the TFTP address is not 10.0.2.2 |
| Metal.PxeInstallerConfig | mantle/platform/metal.go:125-138 | the PXE directive carries the arch console and the debug kargs, and is not attached on s390x |
| Metal.IsoInstallerConfig | mantle/platform/metal.go:617-793 | the ISO directive: pointer ignition path, `/dev/vda` or the multipath device, console except on s390x, debug kargs plus the three multipath kargs, image URL only online and not minimal, CopyNetwork with keyfiles, Insecure when set |
| Metal.ReadString | mantle/platform/metal.go:486 | a line is read exactly when the data holds a newline, and it is the prefix up to and including the first newline; without a newline the read gives EOF, the read error, or blocks forever on a stream that stays open |
| Metal.ReaderOutcome | mantle/platform/metal.go:484-509 | the reader reports once unless its read blocks: EOF gives the "expected" error, a read error a wrapped error, the marker line switches the boot order and reports its error or nil, any other line nil |
| Metal.MarkerLineSwitchesBootOrder | mantle/platform/metal.go:499-508 | a line that trims to `boot-started-OK` switches the boot order and reports nil |
| Metal.MismatchedLineReportsSuccess | mantle/platform/metal.go:499-508 | a line other than the marker reports nil without switching |
| Metal.WaiterOutcome | mantle/platform/metal.go:474-482 | the waiter reports only when Wait errs or the process was signaled, and never reports nil |
| Metal.FirstReport | mantle/platform/metal.go:472-509 | the single result read is the waiter's or the reader's: the reader's when the waiter stays silent, the waiter's when the reader stays silent, and none exactly when both stay silent |
| Metal.ExactlyOneResult | mantle/platform/metal.go:472-509 | a result is reported exactly unless the read blocks on a stream that stays open while QEMU neither fails nor is killed; it is an error on EOF, and when QEMU fails and the waiter reports first or the read blocks |
| Metal.PxeLinuxConfig | mantle/platform/metal.go:402-409 | the pxelinux text of the source template: read back line by line, the `DEFAULT`, `TIMEOUT`, `PROMPT`, `LABEL`, `KERNEL <kernel>` and `APPEND initrd=<initramfs> <kargs>` lines with their tabs |
| Metal.GrubNetConfig | mantle/platform/metal.go:453-461 | the grub text of the source template: read back line by line, the `default`, `timeout` and menu entry with `linux /<kernel> <kargs>` and `initrd <initramfs>` |
| Metal.BootConfigText | mantle/platform/metal.go:395-462 | on s390x the pxe file is the bare kernel line; otherwise the kernel line sits on the pxelinux `APPEND` line or the grub `linux` line |
| MetalInstall.CheckArtifactsExist | mantle/platform/metal.go:102-117 | succeeds exactly when every named artifact is in the build and no os.Stat of its file reports that it does not exist, else reports the first missing one; a stat that fails for another reason (permission denied, say) is ignored, as in the source |
| MetalInstall.InstalledMachine.Destroy | mantle/platform/metal.go:156-165 | destroys the VM once if the handle is set and clears it; with a temp directory it returns os.RemoveAll's error, and the tree is gone when that is nil and at most partly gone otherwise; without one it returns nil and leaves the host alone |
| MetalInstall.DestroyTwice | mantle/platform/metal.go:156-165 | two Destroy calls on any machine destroy the VM exactly once; each reports its own os.RemoveAll outcome when the machine owns a temp directory and nil otherwise; once either removal succeeds the directory is gone, and if both fail nothing outside it was touched |
| MetalInstall.CleanupTempdir | mantle/platform/metal.go:232-237 | the deferred removal restores the host's directories and files to what they were before the temp directory |
| MetalInstall.RemoveAllRestores | mantle/platform/metal.go:232-237 | removing a fresh directory tree undoes everything written under it |
| MetalInstall.Completed | mantle/platform/metal.go:395-438 | completing the PXE setup changes only the boot file, which is set for the `pxe` boot type |
| MetalInstall.CompletedHasBootfile | mantle/platform/metal.go:395-438 | after completePxeSetup every supported architecture has a boot file |
| MetalInstall.InstallerRun.Destroy | mantle/platform/metal.go:381-387 | closes the builder and removes the temp directory exactly when it is still owned |
| MetalInstall.InstallerRun.CompletePxeSetup | mantle/platform/metal.go:389-470 | writes the boot config for the kernel line; on success the setup becomes `Completed`, on failure it is unchanged; everything written stays under the temp directory |
| MetalInstall.InstallerRun.WriteBootFiles | mantle/platform/metal.go:395-467 | the boot-type switch writes the boot config at its path with the kernel, initramfs and kernel line |
| MetalInstall.InstallerRun.WritePxelinuxFiles | mantle/platform/metal.go:396-438 | the `pxe` branch creates `pxelinux.cfg`, writes the pxelinux config and copies the syslinux files |
| MetalInstall.InstallerRun.WriteGrubFiles | mantle/platform/metal.go:439-464 | the `grub` branch runs grub2-mknetdir, then cp-reflink when there is a PXE image path, and writes the grub config |
| MetalInstall.InstallerRun.Run | mantle/platform/metal.go:532-552 | appends exactly `NetArgs` to the builder and starts QEMU, failing exactly when Exec fails |
| MetalInstall.UnflaggedFlagged | mantle/platform/metal.go:781-783 | the `--append k` argument pairs carry every karg, in order |
| MetalInstall.AppendFlags | mantle/platform/metal.go:781-783 | the loop appends one flag/value pair per value |
| MetalInstall.KeyfileFilesHold | mantle/platform/metal.go:756-762 | the keyfiles written are exactly one per name, under the temp directory, with the keyfile's contents |
| MetalInstall.KeyfilePaths | mantle/platform/metal.go:757 | each keyfile path is the temp directory joined with its name |
| MetalInstall.IsoKargs | mantle/platform/metal.go:634-776 | the ISO kargs are the debug kargs, then the caller's, then `rd.neednet=1` exactly when there are keyfiles |
| MetalInstall.IsoLiveConfig | mantle/platform/metal.go:801-820 | the live config gains the pointer and directive files, the boot-started unit, autologin, and the two multipath units when multipath |
| MetalInstall.Install.Setup | mantle/platform/metal.go:215-348 | a missing metal artifact fails before any directory; any later failure leaves the host as it was; success hands a valid run that owns the temp directory with the arch's PXE setup |
| MetalInstall.Install.PopulateTftp | mantle/platform/metal.go:239-281 | creates the TFTP directory and writes the ignition configs, kernel links and metal image under it, nothing else |
| MetalInstall.Install.Pxe | mantle/platform/metal.go:119-154 | missing live artifacts fail with no change; otherwise the kargs become debug kargs plus the caller's, the directive is embedded except on s390x, a build without a live initramfs panics; otherwise every failure is runPXE's error wrapped "testing live installer" (for a missing metal image, the artifact error wrapped "setting up install" inside it), and an installed machine holds a fresh VM that has not been destroyed |
| MetalInstall.Install.RunLive | mantle/platform/metal.go:144-153 | a failed install leaves the host unchanged and its error is runPXE's wrapped "testing live installer"; an installed machine is fresh, owns its temp directory and holds a fresh VM not yet destroyed |
| MetalInstall.Install.RunPxe | mantle/platform/metal.go:554-588 | on error the host is restored (the temp directory is removed), and a missing metal image gives the artifact error wrapped "setting up install"; on success the machine holds a fresh VM and the temp directory, and the builder is closed |
| MetalInstall.Install.RunPxeWith | mantle/platform/metal.go:559-588 | from a successful setup: errors restore the host, success transfers the directory to the machine |
| MetalInstall.Install.PrepareBoot | mantle/platform/metal.go:563-575 | the boot-started channel and completePxeSetup; a failure runs the deferred destroy and restores the host |
| MetalInstall.Launch | mantle/platform/metal.go:576-587 | fails exactly when Exec fails (and then restores the host); success clears the run's tempdir and gives it to the machine |
| MetalInstall.DestroyRun | mantle/platform/metal.go:559-561 | the deferred destroy on an error path closes the builder and restores the host |
| MetalInstall.Install.InstallViaIsoEmbed | mantle/platform/metal.go:600-615 | missing artifacts fail first; minimal with offline panics; offline with keyfiles fails; all three happen before any temp directory exists |
| MetalInstall.Install.IsoInstallChecked | mantle/platform/metal.go:617-857 | after the checks, a failure leaves the host's directories and files as the model tracks them (the temp directory and the keyfiles) unchanged, and success yields a machine owning the temp directory with a fresh VM and the boot watchers attached |
| MetalInstall.Install.NewIsoDirective | mantle/platform/metal.go:617-632 | the directive's initial fields, including the multipath device and kargs |
| MetalInstall.Install.IsoBoot | mantle/platform/metal.go:638-857 | every tracked write after the temp directory stays under it (the debugging configs in the output directory are not tracked); success extends the kargs by `rd.neednet=1` exactly with keyfiles |
| MetalInstall.Install.PrepareIso | mantle/platform/metal.go:649-789 | staging, serving, keyfiles and the kargs step; the ISO to boot and the kargs on success |
| MetalInstall.Install.FinishDirective | mantle/platform/metal.go:716-793 | the directive is the full ISO directive for the mode, the image URL and the keyfile flag |
| MetalInstall.Install.StageAndServe | mantle/platform/metal.go:649-753 | leaves the host's tracked files unchanged; on success the commands logged are the copy of the live ISO and, online with a minimal ISO, the extraction, in that order, and the ISO is the final one (the chmod and the symlink are steps that may fail, not logged commands) |
| MetalInstall.Install.StageIso | mantle/platform/metal.go:649-686 | the target config writes, the ISO copy into the temp directory and the metal image link |
| MetalInstall.Install.ServeTarget | mantle/platform/metal.go:696-753 | the minimal ISO is extracted only for minimal installs; the pointer config is saved |
| MetalInstall.Install.EmbedKeyfiles | mantle/platform/metal.go:755-777 | the keyfiles are written and, when there are any, embedded with one `--keyfile` per file |
| MetalInstall.Install.WriteKeyfiles | mantle/platform/metal.go:756-762 | each keyfile is written under the temp directory in map-iteration order |
| MetalInstall.Install.ModifyKargs | mantle/platform/metal.go:779-789 | the ISO kargs are modified with one `--append` per karg |
| MetalInstall.Install.ExtendLive | mantle/platform/metal.go:801-820 | the live config becomes `IsoLiveConfig` of the old one |
| MetalInstall.Install.LaunchIso | mantle/platform/metal.go:801-857 | the builder gets the live config, the boot-started channel and the ISO at boot index 3; networking is on unless offline |
| QemuCluster.ConfigPath | mantle/platform/machine/qemu/cluster.go:103-112 | an Ignition config goes to `ignition.json`, an empty one gives an empty path, any other kind is the "only supports Ignition or empty configs" error |
| QemuCluster.FlightMemoryWins | mantle/platform/machine/qemu/cluster.go:136-141 | a flight memory string that parses wins over every other source |
| QemuCluster.MemoryErrors | mantle/platform/machine/qemu/cluster.go:136-140 | memory resolution fails exactly when the flight string is set and not a 32-bit decimal |
| QemuCluster.MemoryWithoutFlight | mantle/platform/machine/qemu/cluster.go:142-146 | without a flight string: MinMemory if non-zero, else 4096 with secure execution, else the builder default |
| QemuCluster.MachineFirmwareWins | mantle/platform/machine/qemu/cluster.go:122-214 | a non-empty option firmware overrides the flight firmware, which overrides the default |
| QemuCluster.Native4kWins | mantle/platform/machine/qemu/cluster.go:166-171 | Native4k sets 4096-byte sectors and leaves the logical sector size, taking precedence over Disk512e |
| QemuCluster.DiskFlagsMonotone | mantle/platform/machine/qemu/cluster.go:163-183 | NVMe from either source sets the `nvme` channel; multipath is the OR of both flags; size and backing file follow their precedence |
| QemuCluster.MinDiskSizeReadsBack | mantle/platform/machine/qemu/cluster.go:175-176 | a MinDiskSize of n becomes `<n>G`, which the disk-spec parser reads back as n with no options |
| QemuCluster.ResolveForwards | mantle/platform/machine/qemu/cluster.go:192-199 | the caller's forwards when non-empty, else exactly `{ssh, 0, 22}` |
| QemuCluster.TrimLeftSlashes | mantle/platform/machine/qemu/cluster.go:132 | strips exactly the leading slashes |
| QemuCluster.BindMounts | mantle/platform/machine/qemu/cluster.go:131-134 | one read-only mount per bind path, in order |
| QemuCluster.MountDestinations | mantle/platform/machine/qemu/cluster.go:132-133 | mount destinations sit under `/kola/host/` with no doubled slash |
| QemuCluster.ExitLog | mantle/platform/machine/qemu/cluster.go:249-254 | the watcher logs exactly when Wait errs and the cluster is not tearing down |
| QemuCluster.TeardownSilencesWatcher | mantle/platform/machine/qemu/cluster.go:249-263 | during teardown nothing is logged; otherwise the abnormal-exit line carries the error |
| QemuCluster.QemuBuilder.MountHost | mantle/platform/machine/qemu/cluster.go:133 | appends one mount |
| QemuCluster.Cluster.NewMachineWithOptions | mantle/platform/machine/qemu/cluster.go:51-59 | a non-empty instance type fails without creating a machine; otherwise it is NewMachineWithQemuOptions with the options' firmware |
| QemuCluster.Cluster.NewMachineWithQemuOptions | mantle/platform/machine/qemu/cluster.go:61-257 | fails exactly when some step fails, with that step's error and no machine added; on success the builder holds the layered configuration and the machine is launched and registered |
| QemuCluster.Cluster.NewBuilder | mantle/platform/machine/qemu/cluster.go:92-214 | a fresh builder prepared and configured, or the first failure |
| QemuCluster.Cluster.Prepare | mantle/platform/machine/qemu/cluster.go:92-116 | pdeathsig, secure execution and the config path are set, or the first failure |
| QemuCluster.Cluster.ConfigureBuilder | mantle/platform/machine/qemu/cluster.go:116-214 | the flight options, memory, disks and networking are applied in source order, or the first failure |
| QemuCluster.Cluster.ApplyFlight | mantle/platform/machine/qemu/cluster.go:116-134 | UUID, architecture, flight firmware, swtpm, hostname, console file and the bind mounts |
| QemuCluster.Cluster.MountBindRO | mantle/platform/machine/qemu/cluster.go:131-134 | the loop adds exactly `BindMounts` of the bind paths |
| QemuCluster.Cluster.ApplyDevices | mantle/platform/machine/qemu/cluster.go:136-214 | memory, then disks, then networking, or the first failure |
| QemuCluster.Cluster.ApplyMemory | mantle/platform/machine/qemu/cluster.go:136-146 | the builder memory becomes the resolved memory, or the wrapped parse error |
| QemuCluster.Cluster.ApplyDisks | mantle/platform/machine/qemu/cluster.go:148-190 | parses the primary disk, adds the cex device and boot disk and the additional disks, or the first failure |
| QemuCluster.Cluster.ApplyDiskFlags | mantle/platform/machine/qemu/cluster.go:163-183 | the field-by-field updates produce exactly the resolved disk |
| QemuCluster.Cluster.ApplyNetworking | mantle/platform/machine/qemu/cluster.go:192-214 | forwards, nics, kernel args, restricted networking without internet access, and the option firmware override |
| QemuCluster.Cluster.Launch | mantle/platform/machine/qemu/cluster.go:216-241 | Exec, the SSH address and StartMachine; a StartMachine failure destroys the machine, while a failed SSH-address retry returns with QEMU still running and the machine not destroyed, as the source does |
| QemuCluster.Cluster.WatchExit | mantle/platform/machine/qemu/cluster.go:249-254 | appends the abnormal-exit line exactly when `ExitLog` gives one |
| QemuCluster.Cluster.Destroy | mantle/platform/machine/qemu/cluster.go:259-263 | sets tearingDown before the base cluster is destroyed |
| QemuCluster.Cluster.ExitAfterDestroy | mantle/platform/machine/qemu/cluster.go:249-263 | an exit observed after Destroy logs nothing |
| FcosTranslate.ProcessBootDevice | vendor/github.com/coreos/butane/config/fcos/v1_6/translate.go:111-326 | the step-by-step rendering equals the specification `BootDeviceRendering` |
| FcosTranslate.PartitionMirror | vendor/github.com/coreos/butane/config/fcos/v1_6/translate.go:143-203 | the mirror loop yields one disk per device and one ESP per disk when EFI is wanted |
| FcosTranslate.PartitionDisk | vendor/github.com/coreos/butane/config/fcos/v1_6/translate.go:146-188 | one mirror disk with its four partitions |
| FcosTranslate.RaidDevices | vendor/github.com/coreos/butane/config/fcos/v1_6/translate.go:207-214 | a fresh array filled by index with `/dev/disk/by-partlabel/<prefix>-1..k` |
| FcosTranslate.RenderingCases | vendor/github.com/coreos/butane/config/fcos/v1_6/translate.go:117-309 | the config is unchanged exactly when no LUKS is wanted and there are no mirror devices; it panics only for an unknown layout or an s390x disk layout without a device |
| FcosTranslate.LayoutTable | vendor/github.com/coreos/butane/config/fcos/v1_6/translate.go:127-140 | nil/x86_64 is BIOS+EFI, aarch64 EFI, ppc64le PReP, the s390x layouts none, anything else panics |
| FcosTranslate.MirrorDisks | vendor/github.com/coreos/butane/config/fcos/v1_6/translate.go:145-190 | one disk per mirror device, numbered from 1 |
| FcosTranslate.MirrorDiskShape | vendor/github.com/coreos/butane/config/fcos/v1_6/translate.go:147-188 | each disk wipes its table and has four partitions: bios/prep/reserved, esp/reserved, 384 MiB boot and unsized root, with suffix i+1 |
| FcosTranslate.EspFilesystems | vendor/github.com/coreos/butane/config/fcos/v1_6/translate.go:192-202 | one vfat ESP per disk on `esp-N` when EFI is wanted, none otherwise |
| FcosTranslate.RaidDeviceList | vendor/github.com/coreos/butane/config/fcos/v1_6/translate.go:207-214 | k members, the i-th being `<prefix>-(i+1)` by partlabel |
| FcosTranslate.RaidMembersArePartitions | vendor/github.com/coreos/butane/config/fcos/v1_6/translate.go:207-227 | exactly md-boot (metadata 1.0) and md-root, raid1, whose members are the boot and root partitions of the mirror disks |
| FcosTranslate.RaidMembersDistinct | vendor/github.com/coreos/butane/config/fcos/v1_6/translate.go:210-211 | RAID members are pairwise distinct |
| FcosTranslate.FilesystemOrder | vendor/github.com/coreos/butane/config/fcos/v1_6/translate.go:192-318 | ESPs first, then the ext4 boot filesystem on md-boot, then the xfs root last on `/dev/mapper/root` with LUKS or `/dev/md/md-root` |
| FcosTranslate.LuksVolume | vendor/github.com/coreos/butane/config/fcos/v1_6/translate.go:241-296 | exactly one volume, `root`/`luks-root`, wiped, Cex exactly when cex is enabled, on `<dev>2`, `<dev>4`, md-root or the root partlabel |
| FcosTranslate.WrongNumberTable | vendor/github.com/coreos/butane/config/fcos/v1_6/translate.go:75 | the reserved-number table agrees with the check's five disjuncts |
| FcosTranslate.CheckPartitionLabels | vendor/github.com/coreos/butane/config/fcos/v1_6/translate.go:71-86 | the nested loops produce exactly `LabelWarnings` |
| FcosTranslate.PartitionWarningsExact | vendor/github.com/coreos/butane/config/fcos/v1_6/translate.go:74-82 | a disk's warnings are exactly its partitions with a reserved label at the wrong number |
| FcosTranslate.LabelWarningsExact | vendor/github.com/coreos/butane/config/fcos/v1_6/translate.go:71-86 | a warning exists exactly for a wrongly numbered reserved label on a disk whose wipeTable is not true |
| FcosTranslate.NoWarningsOnWipedDisks | vendor/github.com/coreos/butane/config/fcos/v1_6/translate.go:72-73 | disks that all wipe their table raise no warning |
| FcosTranslate.MirrorDisksRaiseNoWarning | vendor/github.com/coreos/butane/config/fcos/v1_6/translate.go:71-86 | the disks the mirror renders never raise the warning |
| FcosTranslate.UserNames | vendor/github.com/coreos/butane/config/fcos/v1_6/translate.go:405-407 | the superuser names in user order |
| FcosTranslate.PasswordLines | vendor/github.com/coreos/butane/config/fcos/v1_6/translate.go:405-410 | one `password_pbkdf2` line per user in order |
| FcosTranslate.BuildGrubConfig | vendor/github.com/coreos/butane/config/fcos/v1_6/translate.go:400-413 | the loop-built text equals `GrubConfig` |
| FcosTranslate.GrubConfigLines | vendor/github.com/coreos/butane/config/fcos/v1_6/translate.go:411-412 | the config's lines are the header, an empty line, the superusers line, one password line per user, and a final empty piece |
| FcosTranslate.UserGrubCfg | vendor/github.com/coreos/butane/config/fcos/v1_6/translate.go:355-398 | no users give an empty config; otherwise one ext4 filesystem on `/dev/disk/by-label/boot` mounted at `/boot` and one `user.cfg` file holding the GRUB config; never any disks, RAID arrays or LUKS volumes |

## Left out

- File system, network and process I/O are outside the model. This covers directory
  creation, file writes, `os.Stat`, the HTTP servers, symlinks, `cat` and the external
  tools. Each is an abstract step on the `Host` object. It fails exactly when the
  environment's `failing` map names it. Ports, temp-directory names, UUIDs and machine
  serials are environment inputs.
- The CPU architecture, the firmware and the `COSA_TESTISO_DEBUG` lookup are parameters.
- Go map iteration order is a parameter (`order`), constrained to visit each keyfile once.
- The goroutine scheduling in `switchBootOrderSignal` is left out. So are the one-second
  sleep, the background exit watcher's timing and the cluster mutex. The model keeps each
  watcher's outcome function and which report comes first, as a boolean.
- The `conf.Conf` operations (AddFile, AddSystemdUnit, AddAutoLogin, WriteFile, String)
  are records. Each live-config change is an entry in a list. The unit texts are named,
  not spelled out.
- The QemuBuilder's own methods are abstract steps or field updates. This covers
  SetSecureExecution, SetArchitecture, AddCexDevice, AddBootDisk, AddDisksFromSpecs, Exec,
  Close and VirtioChannelRead. The model calls Close where the installer flows of metal.go
  close the builder. The deferred `builder.Close()` in `NewMachineWithQemuOptions`
  (cluster.go:115) is not modelled: it only releases the builder's own resources. `util.Retry`, `platform.StartMachine` and `ParseDisk` are
  abstract too. Their sources are not part of this model.
- YAML marshalling of `installerConfig` is left out. The model states the record's fields.
- In `handleUserGrubCfg`, the model leaves out MakeDataURL's encoding, compression and
  error path. The file holds the GRUB text itself.
- Butane's translation sets and reports are left out. This covers
  `AddFromCommonSource`, `MergeTranslatedConfigs` and the merge into the caller's config.
  `processBootDevice` returns the rendered fragment.
- The clevis and cex bindings produced by `translateBootDeviceLuks` and
  `translateBootDeviceLuksCex` are left out. The model records only which of the two is
  used and the discard flag.
- `QemuCluster.Cluster.NewMachineWithOptions`: `NewMachine` (cluster.go:47-49) is this
  call with empty machine options and has no member of its own.
- `QemuCluster.Cluster.NewMachineWithQemuOptions`: the journal and the cloud-config IP
  substitution (cluster.go:69-90) are left out, because they call code whose source is
  not part of this model. Their failures are abstract steps.
- `GoStrings.ParseInt32`: the error text quotes its input without Go's `%q` escaping.
- `MetalInstall.Install.Setup`: an unsupported architecture fails with the intended
  `Unsupported arch <arch>` message. The message the source builds is
  `Unsupported arch %!s(MISSING)<arch>` (see "## Findings"), which
  `Metal.UnsupportedArchMessageAsWritten` gives. The flows use the corrected text.
- `MetalInstall.Host.RemoveAll`: the deferred removals in `setup` (metal.go:232-237) and
  `installerRun.destroy` (metal.go:381-387) discard os.RemoveAll's error. The model takes
  them to succeed. A failed removal there would leave part of the temp directory behind,
  and the flows' "the host is as it was" would not hold. `InstalledMachine.Destroy`, whose
  caller does see the error, takes the removal's outcome as an input.
- `MetalInstall.Launch`: the deferred `err = t.destroy()` in `runPXE` assigns a local
  after the return value is fixed, because runPXE's results are unnamed. It has no effect,
  and the model does not show it.
- `MetalInstall.Install.IsoInstallChecked`: the ISO flow writes three debugging configs into
  the output directory: `config-target.ign` (metal.go:653), `config-target-pointer.ign`
  (metal.go:750) and `config-live.ign` (metal.go:832). The model performs these writes as
  steps that may fail but does not add the files to the host, and they survive a failure.
  "The host is unchanged after a failure" covers only the temp directory and the keyfiles.
- `MetalInstall.Install.IsoBoot`: for the same reason, "every write stays under the temp
  directory" holds only for the files the model tracks. The three debugging configs in the
  output directory are written outside it.
- `QemuCluster.Cluster.Destroy`: `flight.DelCluster` removes the cluster from the flight's
  registry. The registry is not part of this model; the removal is modelled as the
  cluster's `inFlight` flag becoming false.
- The Azure CLI commands under `mantle/cmd/ore/azure` are left out. They are flag wiring
  around an SDK wrapper that is not part of this model.

## Findings

| source | as written | input that shows it | evidently intended | confidence | as-written member | corrected member |
|---|---|---|---|---|---|---|
| mantle/platform/metal.go:315 | `fmt.Errorf("Unsupported arch %s" + arch)` concatenates the architecture onto the format and passes no operand | arch `riscv64` gives `Unsupported arch %!s(MISSING)riscv64` | `Unsupported arch riscv64` | not executed | Metal.UnsupportedArchMessageGarbled | Metal.ArchPxeSetup |
| mantle/util/common.go:145-147 | `strings.SplitN` never returns an empty slice, so the "invalid empty option" branch is dead and empty options are stored under the key "" | spec `5G:` parses to size 5 with options `{"": ""}` | reject empty options with the "invalid empty option found in spec" error | not executed | DiskSpec.TrailingColonSetsEmptyKey | DiskSpec.StrictRejectsTrailingColon |
