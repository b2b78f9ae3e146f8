# kisiac storage reconcilers in Dafny

kisiac brings a host's storage to a state declared in YAML. This project
models the two reconcilers in its Python source and proves properties of
that model:

- **LVM.** The observed physical volumes (PVs), volume groups (VGs) and
  logical volumes (LVs) are compared with the desired ones. The result is a
  plan of LVM commands in a fixed order of seven phases:
  1. `lvremove`
  2. `vgremove`
  3. `pvremove`
  4. `pvcreate`
  5. `vgcreate`
  6. `lvcreate`
  7. per shared VG: `vgextend`, `vgreduce`, `lvresize`

  Planning is refused when an existing LV would change layout. Once the
  operator confirms, the plan runs in order and stops at the first failure.
- **Filesystems.** `blkid` output is parsed into devices. Each declared
  filesystem is matched to a device by its one addressing key (device, label
  or uuid). The model decides which `mkfs` commands to run, which fstab
  entries change, and the sorted table that replaces `/etc/fstab`.

The value types these use are modelled too: the parsing of the `lvm:`
configuration mapping, the `Filesystem` record with its fstab conversion and
its order, and the package command strings.

Modules, one per file:

| file | module | models |
|---|---|---|
| `wrappers.dfy` | `Wrappers` | `Option` (a Python `None`) and `Result` (a value or a raised error) |
| `orders.dfy` | `Orders` | strict total orders, lexicographic order, `sorted` over a finite set, nested comprehensions (`FlatMap`) |
| `yaml.dfy` | `Yaml` | a loaded YAML value, `dict.get` with a default, and what `for x in value` visits |
| `lvm.dfy` | `Lvm` | `PV`, `LV`, `VG`, `LVMEntities`, `is_empty`, `from_config` |
| `update.dfy` | `Update`, `UpdateRun` | `update_lvm`: the plan as a function, the loops that build it, the fail-fast execution |
| `config.dfy` | `Config` | `Package.cmd` / `install_cmd`; `Filesystem` with its checked constructor, `from_fstab_entry`, `to_fstab_entry` and order |
| `filesystems.dfy` | `Filesystems` | `DeviceInfo`, `blkid` line parsing, `get_info`, the `mkfs` selection, the fstab diff and rewrite, `update_filesystems` |

The LVM plan is the pure function `Update.Plan`. It returns the flat list of
argument vectors, or the `LayoutConflict` that aborts planning. The source
builds it imperatively:
- Phases 1 to 6 are appended one after another.
- A loop over the desired VGs appends phase 7, with an inner loop over their
  LVs.
- A nested loop runs the commands.

These loops are the methods below. Each is proved against the function it
computes:
- `Update.ResizeLvs`
- `Update.ConvergeVgs`
- `Update.BuildPlan`
- `Update.RunSequentially`
- `UpdateRun.Execute`
- `UpdateRun.UpdateLvm`
- `Lvm.FromConfig`
- `Filesystems.GetInfo`
- `Filesystems.ReadDeviceInfos`
- `Filesystems.MkfsCommands`
- `Filesystems.UpdateFilesystems`

External effects are parameters:
- The observed LVM state is an `Entities` value.
- The `blkid` output is a sequence of lines.
- The old fstab is a sequence of entries.
- The operator's answer is a `bool`.
- Running a command is an oracle `succeeds(index, argv)`.

Python dictionaries and sets have no order a `map` or `set` records. The
plan therefore visits VG names, LV names and PV devices in lexicographic
order. The `mkfs` loop visits the filesystems in any order, and its contract
quantifies over that order.

Three behaviours are modelled as the code has them:
- Sizes are opaque strings, compared as strings.
- `pvremove` and `pvcreate` are emitted even when they list no PV. So
  reconciling a state with itself plans exactly those two empty batches
  (`Update.PlanIdempotent`).
- An LV is named `vg/lv` on the command line, not `/dev/vg/lv`.

## Model

| member | source | states |
|---|---|---|
| Lvm.Entities.IsEmpty | src/kisiac/lvm.py:33-34 | holds exactly when there is no PV and no VG, i.e. the state equals the empty one `LVMEntities()` starts from |
| Lvm.ParseLv | src/kisiac/lvm.py:51-56 | succeeds exactly when the entry is a mapping with string `layout` and `size`; the LV is then named by its key, with layout and size copied verbatim; otherwise the error is the first check that fails |
| Lvm.ParseDevices | src/kisiac/lvm.py:40-42 | `PV(d)` is in the result exactly when `d` is one of the listed strings, so duplicates collapse |
| Lvm.ParseVg | src/kisiac/lvm.py:43-62 | accepts exactly the VG entries the source accepts; any error is one the source may raise for the entry; an accepted VG is named by its key, has one LV per `lvs` key built from its entry, and has exactly the listed PVs, with missing `lvs` / `pvs` keys meaning empty |
| Lvm.FromConfig | src/kisiac/lvm.py:37-63 | succeeds exactly on the configurations the source accepts; any error is one the source may raise; the result is keyed by name, its PVs are exactly the top-level `pvs` strings (none when the key is missing), its VGs are exactly the `vgs` keys, each built from its entry |
| Update.FirstFailure | src/kisiac/update.py:132-139 | the index of the first command the runner rejects: every earlier one succeeds, and the one at the index, if any, fails |
| Update.RunSequentially | src/kisiac/update.py:132-139 | attempts the commands in order up to and including the first that fails and reports it; when none fails, every command is attempted and the run completes |
| Update.ResizeLvs | src/kisiac/update.py:104-124 | the LV loop of one shared VG returns exactly `Resizes`: the `lvresize` commands in LV-name order, or the first layout conflict |
| Update.ConvergeVgs | src/kisiac/update.py:85-124 | the loop over the desired VGs returns exactly `Converge`: each shared VG's `vgextend`, `vgreduce` and resizes, or the first layout conflict |
| Update.BuildPlan | src/kisiac/update.py:44-124 | builds exactly `Plan`: phases 1 to 6 followed by the VG loop, or the layout conflict that aborts planning |
| Update.PvBatchesExact | src/kisiac/update.py:60-62 | phase 3 is one `pvremove --yes` listing exactly the current PVs not desired, and phase 4 one `pvcreate --yes` listing exactly the desired PVs not current, each device once |
| Update.VgRemovesExact | src/kisiac/update.py:56-59 | phase 2 holds a `vgremove --yes n` exactly for each current VG name `n` that is not desired |
| Update.VgCreatesExact | src/kisiac/update.py:63-67 | phase 5 holds a `vgcreate` exactly for each desired VG whose name is not current, listing all that VG's PVs |
| Update.VgExtendExact | src/kisiac/update.py:90-95 | a shared VG gets at most one `vgextend`; it gets one exactly when it gains PVs, and it lists exactly those |
| Update.VgReduceExact | src/kisiac/update.py:96-101 | a shared VG gets at most one `vgreduce --yes`; it gets one exactly when it loses PVs, and it lists exactly those |
| Update.ResizesErr | src/kisiac/update.py:104-113 | the LV loop of a shared VG fails exactly when one of its LVs exists on both sides with another layout, and the error names such an LV with both layouts |
| Update.ResizesMember | src/kisiac/update.py:114-124 | when that loop succeeds, it holds an `lvresize --fsmode manage -L size vg/lv` exactly for each LV on both sides whose size string differs |
| Update.ConvergeErr | src/kisiac/update.py:85-113 | phase 7 fails exactly when some LV of a VG present on both sides changes layout, and the error is that LV's conflict |
| Update.ConvergeMember | src/kisiac/update.py:85-124 | when phase 7 succeeds, its commands are exactly the `vgextend`, `vgreduce` and resize commands of the VGs present on both sides |
| Update.SharedResizesOk | src/kisiac/update.py:104-113 | once planning succeeds, the LV loop of every VG present on both sides succeeded |
| Update.PlanLayoutConflict | src/kisiac/update.py:108-113 | planning fails, before anything runs, exactly when an LV present on both sides changes layout, and the error names such an LV with its current and desired layout |
| Update.PlanPhaseOrder | src/kisiac/update.py:44-124 | every command of a successful plan belongs to one of the phases 1 to 7, and its phases never decrease from one command to the next |
| Update.PreludePhaseOrder | src/kisiac/update.py:46-82 | phases 1 to 6 come in order and none goes beyond phase 6 |
| Update.PlanPhases | src/kisiac/update.py:44-124 | for each phase, the plan's commands of that phase are exactly the commands that phase emits |
| Update.PlanLvRemoves | src/kisiac/update.py:46-55 | the plan holds an `lvremove --yes vg/lv` exactly for each current LV whose VG is not desired or whose name is not among the desired VG's LVs |
| Update.PlanVgRemoves | src/kisiac/update.py:56-59 | the plan holds a `vgremove` exactly for each current VG name that is not desired |
| Update.PlanPvVerbs | src/kisiac/update.py:60-62 | a successful plan holds exactly one `pvremove` and exactly one `pvcreate`, right after phases 1 and 2 |
| Update.PlanVgCreates | src/kisiac/update.py:63-67 | the plan holds a `vgcreate` exactly for each desired VG name that is not current, with all its PVs |
| Update.PlanLvCreates | src/kisiac/update.py:68-82 | the plan holds an `lvcreate -n name -L size vg --type layout` exactly for each desired LV the current state lacks, including the LVs of VGs being created |
| Update.PlanVgExtends | src/kisiac/update.py:90-95 | the plan's `vgextend`s are exactly those of the VGs present on both sides that gain PVs |
| Update.PlanVgReduces | src/kisiac/update.py:96-101 | the plan's `vgreduce`s are exactly those of the VGs present on both sides that lose PVs |
| Update.PlanLvResizes | src/kisiac/update.py:114-124 | the plan holds an `lvresize` exactly for each LV present on both sides whose size differs |
| Update.PlanIdempotent | src/kisiac/update.py:44-124 | reconciling a well-keyed state with itself plans only the two empty PV batches: no `lvremove`, `vgremove`, `vgcreate`, `lvcreate`, `vgextend`, `vgreduce` or `lvresize` |
| Update.LvRemoveAsWrittenMissesTarget | src/kisiac/update.py:50 | as written, the `lvremove` argument is never `vg/<lv name>`; the corrected command names exactly that path |
| Update.PvBatchesAsWrittenJoinable | src/kisiac/update.py:60-62 | as written, a PV batch can be joined into a command line exactly when it lists no PV |
| Update.PvBatchesCorrected | src/kisiac/update.py:60-62 | with each PV value read as its device path, the written batches are exactly the modelled batches |
| UpdateRun.RanFailFast | src/kisiac/update.py:132-139 | after confirmation, the attempted commands are a prefix of the plan and all but the last of them succeeded; the update counts as applied exactly when every command succeeds; otherwise the last attempted command is the one that failed |
| UpdateRun.Execute | src/kisiac/update.py:127-139 | nothing is attempted unless the operator confirms; then the commands run in order up to the first failure, and the outcome is applied, or the "Incomplete LVM update" naming the failing command |
| UpdateRun.UpdateLvm | src/kisiac/update.py:40-139 | the plan built is `Plan`; on a layout conflict nothing is attempted and the conflict is reported; otherwise the plan is executed as `Execute` states |
| UpdateRun.UpdateLvmAsWritten | src/kisiac/update.py:44-139 | the code as written: the layout error, then the message over the nested `cmds` (which uses up the generators and raises on a PV value), then the nested run loop over what is left, one `run_cmd` per word |
| UpdateRun.DisplayableExactly | src/kisiac/update.py:125 | as written, the operator is asked exactly when planning succeeds and no PV is to be removed or created |
| UpdateRun.AsWrittenRunsNoLvmCommand | src/kisiac/update.py:125-139 | as written, no call of `run_cmd` gets a command of any phase; once the operator is asked and confirms, the first call gets the characters of `pvremove`, and when that fails it is reported as the incomplete update and nothing else runs |
| Config.WithOptionsSplit | src/kisiac/config.py:37 | for a non-empty list, the space-joined `--with <pkg>` options of packages without spaces split back into a `--with` before each package, in order |
| Config.InstallCmdWords | src/kisiac/config.py:35-38 | split at single spaces, the install command reads `pixi global install <name>` and then `--with <pkg>` per package in order; with no packages it ends in an empty word from the trailing space |
| Config.NewFilesystem | src/kisiac/config.py:57-62 | construction succeeds exactly when one of device, label and uuid is set, and then keeps the given fields; it fails with the one-key error otherwise |
| Config.FromFstabEntry | src/kisiac/config.py:64-89 | a `LABEL=` device gives that label, else a `UUID=` device gives that uuid, else the string is the device path, the other two keys absent; type, mountpoint and options are copied; missing dump and fsck become 0; the result is always valid |
| Config.FstabRoundTrip | src/kisiac/config.py:64-99 | with the prefix put back, every valid filesystem whose device path has no `LABEL=` / `UUID=` prefix survives conversion to an fstab entry and back |
| Config.FstabEntryRoundTrip | src/kisiac/config.py:64-99 | a complete fstab entry survives conversion to a filesystem and back |
| Config.FstabAsWrittenDeviceRoundTrip | src/kisiac/config.py:91-99 | as written, a device-addressed filesystem still survives the round trip |
| Config.FstabAsWrittenLosesReference | src/kisiac/config.py:93 | as written, no label- or uuid-addressed filesystem survives the round trip |
| Config.FsLessStrictTotal | src/kisiac/config.py:46 | the order on filesystems (field tuples compared left to right, a path field compared part by part, an absent field first) is irreflexive, transitive and total |
| Config.PathOrderByParts | src/kisiac/config.py:46-52 | paths order by their `/`-separated parts, as `PurePath` does, not as strings: `d/data/home` comes before `d/data-old/x`, while as strings it comes after |
| Config.SortedFilesystems | src/kisiac/filesystems.py:44 | `sorted` lists every filesystem of the set exactly once, in strictly increasing order |
| Filesystems.TargetedByKey | src/kisiac/filesystems.py:56-64 | a valid filesystem targets a device exactly when the device has equal path, label or uuid on the one key the filesystem sets |
| Filesystems.FirstTargeted | src/kisiac/filesystems.py:86-89 | no device when none is targeted; otherwise a targeted device with no targeted device before it |
| Filesystems.GetInfo | src/kisiac/filesystems.py:86-89 | the scan returns exactly the first targeted device in probe order, or none |
| Filesystems.MatchHere | src/kisiac/filesystems.py:9 | a match at the front of the text is an upper-case name, `="`, a non-blank value and `"` |
| Filesystems.FindAttrs | src/kisiac/filesystems.py:75 | every pair found has an upper-case attribute name and a non-blank value |
| Filesystems.LastValue | src/kisiac/filesystems.py:73-76 | the dictionary's value for a key: absent exactly when no pair has the key, otherwise the value of the last pair with it |
| Filesystems.LastValueAppend | src/kisiac/filesystems.py:73-76 | a later pair with the key overrides every earlier one |
| Filesystems.FirstColon | src/kisiac/filesystems.py:72 | the position of the first `:`, or none exactly when the line has no `:` |
| Filesystems.ParseBlkidLine | src/kisiac/filesystems.py:72-83 | a line fails exactly when it has no `:` (the unpacking raises) |
| Filesystems.BlkidRoundTrip | src/kisiac/filesystems.py:72-83 | a device printed in `blkid`'s format reads back as the same device: the path before the first `:`, and the `TYPE`, `LABEL` and `UUID` values, each absent when not printed |
| Filesystems.BlkidAsWrittenRaises | src/kisiac/filesystems.py:73-76 | as written, every printed line with at least one attribute raises; the corrected parser reads the same line back as the device |
| Filesystems.ParseBlkid | src/kisiac/filesystems.py:69-84 | the output parses exactly when every line has a `:`, into one device per line in order; otherwise the error is that of the first failing line |
| Filesystems.ReadDeviceInfos | src/kisiac/filesystems.py:67-84 | the loop that appends one device per line computes exactly `ParseBlkid` |
| Filesystems.MkfsPlanMember | src/kisiac/filesystems.py:17-21 | an `mkfs -t <type> <device>` is planned exactly for a filesystem and the first device it targets, when that device's probed type differs from the desired one or is absent |
| Filesystems.MkfsCommands | src/kisiac/filesystems.py:17-21 | the loop visits every filesystem of the set once, in some order, and collects exactly the planned `mkfs` commands in that order |
| Filesystems.PreviousEntries | src/kisiac/filesystems.py:27-29 | reading the old fstab never trips the one-key check: every previous entry is a valid filesystem, and the set holds exactly the conversions of the old entries |
| Filesystems.ChangedOrRemoved | src/kisiac/filesystems.py:31-32 | the entries to change or remove are the previous ones that are not desired; they are disjoint from the desired set, and with the unchanged ones they make up the previous set |
| Filesystems.NewFstabReadBack | src/kisiac/filesystems.py:42-46 | read back, the written table is exactly the desired set, so a second update reports nothing to change or remove |
| Filesystems.NewFstabAsWrittenReadBack | src/kisiac/config.py:93 | as written, a table holding one label- or uuid-addressed filesystem reads back as something else, so every later update reports that entry as changed |
| Filesystems.UpdateFilesystems | src/kisiac/filesystems.py:12-46 | an unreadable probe stops everything; otherwise `mkfs` commands are collected for every filesystem and the change set is computed; nothing runs unless confirmed; then the `mkfs` commands run in order, and the sorted table is written only when all of them succeed |

## Left out

- Host I/O is not modelled: running `lvm fullreport` and `blkid`, reading and writing `/etc/fstab`, the prompt, `sudo` and `ssh`. They are the parameters listed above.
- `LVMEntities.from_system` (src/kisiac/lvm.py:65-89) probes the host and is internally inconsistent. The observed state is an input instead.
- `check_type` lives in a file that is not part of this model. It is taken to reject a value of the wrong type.
- The VG `pvs` list and the LV `layout` and `size` values are not checked in the source. The model rejects a non-string there, because `PV`, `LV` and the commands need strings.
- Lvm.FromConfig: when several VG entries are invalid, which error comes first depends on dictionary order. The contract states only that the error belongs to some invalid entry.
- Update.Plan and Filesystems.MkfsCommands: the command order within a phase is lexicographic, or arbitrary for the `mkfs` loop. It is not Python's dictionary insertion order or set hash order.
- UpdateRun.UpdateLvm: runs the plan as one flat list of argument vectors. As written, `cmds` holds generators for phases 1, 2, 5 and 6 and plain argv lists for the others. The message at src/kisiac/update.py:125 uses up the generators, so no `lvremove`, `vgremove`, `vgcreate` or `lvcreate` ever runs. The loop at lines 132-135 hands each word of a plain list to `run_cmd` on its own, which runs it as `bash -c 'p v r e m o v e'`. `UpdateRun.UpdateLvmAsWritten` models that (see Findings).
- UpdateRun.UpdateLvmAsWritten: the generator contents matter only to the message, which is not modelled as text.
- The `cmd_msg` and `change_or_remove_msg` texts shown at the prompt are not modelled.
- The mutable defaults of `LVMEntities`, which make the class fail to define (src/kisiac/lvm.py:30-31), are not modelled. A fresh empty state is used instead.
- The import of `LVMSetup`, which lvm.py does not define (src/kisiac/config.py:15), is not modelled.
- Paths are strings. They are ordered part by part, as `PurePath` compares them: the string split at `/`, compared piece by piece. `pathlib` normalisation (collapsed `//`, a trailing `/`, `.` parts) and `str(Path)` are not modelled.
- Config.FstabRoundTrip: a device path that itself starts with `LABEL=` or `UUID=` reads back as a label or a uuid. The round-trip lemmas exclude such paths.
- Config.FromFstabEntry: the two `assert`s on the entry (src/kisiac/config.py:66-67) are `requires` clauses instead of error results.
- The order on `Filesystem` compares an absent field as least. Python raises when it compares `None` with a value.
- The `pyfstab` parser and writer are not modelled. An fstab entry is a plain record.
- The `repr` of an LV is modelled symbolically. It is enough to show that the path it gives is never `vg/<name>`, but its escaping is not spelled out.
- Filesystems.UpdateFilesystems: the outcome records the table that is written. The `Rewritten` table uses the corrected device field, and the probe is read with the corrected parser (`Filesystems.ParseBlkidLine`). As written, the parser raises on any `blkid` line with an attribute, so `update_filesystems` fails before it plans anything (see Findings).

## Findings

| source | as written | input that shows it | evidently intended | confidence | as-written member | corrected member |
|---|---|---|---|---|---|---|
| src/kisiac/update.py:50 | `f"{vg.name}/{lv}"` formats the LV value, giving `vg/LV(name=..., ...)` | any current LV to remove, e.g. `home` in VG `data` | `data/home` | not executed | Update.LvRemoveAsWrittenMissesTarget | Update.LvRemoveCmd |
| src/kisiac/update.py:60-62 | the PV values themselves are appended to the `pvremove` / `pvcreate` argv, and joining it for display or for `sudo` raises | any PV to create, e.g. desired `pvs: [/dev/sdb]` with no current PV | `pvcreate --yes /dev/sdb` | not executed | Update.PvBatchesAsWrittenJoinable | Update.PvBatchesCorrected |
| src/kisiac/update.py:125-139 | phases 1, 2, 5 and 6 are appended as generators, which the message at line 125 uses up; phases 3, 4 and 7 are appended as plain lists, whose words the run loop hands to `run_cmd` one at a time | any confirmed update without PV changes: the first call runs `sudo bash -c 'p v r e m o v e'`, and no LVM command ever runs | every planned argv run once, in order | not executed | UpdateRun.AsWrittenRunsNoLvmCommand | UpdateRun.UpdateLvm |
| src/kisiac/config.py:93 | `str(self.device or self.label or self.uuid)` drops the `LABEL=` / `UUID=` prefix, so the entry reads back as a device path | a filesystem with label `data` is written as device `data` | `LABEL=data` | not executed | Filesystems.NewFstabAsWrittenReadBack | Filesystems.NewFstabReadBack |
| src/kisiac/filesystems.py:73-76 | `findall` with two groups yields tuples, and `.group` on a tuple raises | the line `/dev/sda1: TYPE="ext4"` | the device `/dev/sda1` with type `ext4` | not executed | Filesystems.BlkidAsWrittenRaises | Filesystems.BlkidRoundTrip |
