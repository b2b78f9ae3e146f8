/**
 * The value types of src/kisiac/config.py that the reconcilers use: a
 * software package's command names, and a filesystem (one fstab line) with its
 * conversion to and from fstab entries and its total order.
 */
module Config {
  import opened Wrappers
  import opened Orders

  // ---------------------------------------------------------------------------
  // Packages.

  datatype Package = Package(name: string, cmdSpec: Option<string>, desc: string, withPkgs: seq<string>)
  {
    /** The command the package provides: `cmd_spec` when it is a non-empty string, else the name. */
    function Cmd(): (r: string)
      ensures cmdSpec.Some? && cmdSpec.value != "" ==> r == cmdSpec.value
      ensures cmdSpec.None? || cmdSpec.value == "" ==> r == name
    {
      if cmdSpec.Some? && cmdSpec.value != "" then cmdSpec.value else name
    }

    /** `pixi global install <name> ` followed by the space-joined `--with <pkg>` options. */
    function InstallCmd(): string {
      "pixi global install " + name + " " + JoinSpace(WithOptions(withPkgs))
    }
  }

  function WithOptions(pkgs: seq<string>): (r: seq<string>)
    ensures |r| == |pkgs|
    ensures forall i :: 0 <= i < |pkgs| ==> r[i] == "--with " + pkgs[i]
  {
    if pkgs == [] then [] else ["--with " + pkgs[0]] + WithOptions(pkgs[1..])
  }

  /** Python's `" ".join(parts)`. */
  function JoinSpace(parts: seq<string>): string {
    if parts == [] then ""
    else if |parts| == 1 then parts[0]
    else parts[0] + " " + JoinSpace(parts[1..])
  }

  /** Python's `s.split(" ")`: the pieces between single spaces, empty pieces kept. */
  function SplitSpace(s: string): (r: seq<string>)
    ensures |r| >= 1
    decreases |s|
  {
    if ' ' !in s then [s]
    else
      var i := FirstSpace(s);
      [s[..i]] + SplitSpace(s[i + 1..])
  }

  function FirstSpace(s: string): (i: nat)
    requires ' ' in s
    ensures i < |s| && s[i] == ' ' && ' ' !in s[..i]
  {
    if s[0] == ' ' then 0 else assert ' ' in s[1..]; 1 + FirstSpace(s[1..])
  }

  lemma SplitFront(a: string, b: string)
    requires ' ' !in a
    ensures SplitSpace(a + " " + b) == [a] + SplitSpace(b)
  {
    var s := a + " " + b;
    assert s[..|a|] == a && s[|a|] == ' ';
    var i := FirstSpace(s);
    assert i == |a|;
    assert s[i + 1..] == b;
  }

  /** The words of the joined `--with` options, for package names without spaces. */
  function WithWords(pkgs: seq<string>): seq<string> {
    if pkgs == [] then [] else ["--with", pkgs[0]] + WithWords(pkgs[1..])
  }

  /** One joined `--with` option splits back into the flag and the package. */
  lemma SplitWithLast(p: string)
    requires ' ' !in p
    ensures SplitSpace("--with " + p) == ["--with", p]
  {
    assert "--with " + p == "--with" + " " + p;
    SplitFront("--with", p);
  }

  /** A joined `--with` option followed by more words splits into the flag, the package and the rest. */
  lemma SplitWithOption(p: string, rest: string)
    requires ' ' !in p
    ensures SplitSpace("--with " + p + " " + rest) == ["--with", p] + SplitSpace(rest)
  {
    assert "--with " + p + " " + rest == "--with" + " " + (p + " " + rest);
    SplitFront("--with", p + " " + rest);
    SplitFront(p, rest);
  }

  lemma {:induction false} WithOptionsSplit(pkgs: seq<string>)
    requires pkgs != []
    requires forall i :: 0 <= i < |pkgs| ==> ' ' !in pkgs[i]
    ensures SplitSpace(JoinSpace(WithOptions(pkgs))) == WithWords(pkgs)
    decreases |pkgs|
  {
    var opts := WithOptions(pkgs);
    assert ' ' !in pkgs[0];
    if |pkgs| == 1 {
      assert JoinSpace(opts) == "--with " + pkgs[0];
      SplitWithLast(pkgs[0]);
      assert WithWords(pkgs) == ["--with", pkgs[0]] + WithWords([]);
    } else {
      var rest := pkgs[1..];
      assert WithOptions(rest) == opts[1..];
      assert JoinSpace(opts) == "--with " + pkgs[0] + " " + JoinSpace(WithOptions(rest));
      SplitWithOption(pkgs[0], JoinSpace(WithOptions(rest)));
      WithOptionsSplit(rest);
      assert WithWords(pkgs) == ["--with", pkgs[0]] + WithWords(rest);
    }
  }

  lemma ConsFour<T>(a: T, b: T, c: T, d: T, x: seq<T>)
    ensures [a] + ([b] + ([c] + ([d] + x))) == [a, b, c, d] + x
  {
  }

  lemma SplitFour(a: string, b: string, c: string, d: string, tail: string)
    requires ' ' !in a && ' ' !in b && ' ' !in c && ' ' !in d
    ensures SplitSpace(a + " " + (b + " " + (c + " " + (d + " " + tail))))
      == [a, b, c, d] + SplitSpace(tail)
  {
    SplitFront(d, tail);
    SplitFront(c, d + " " + tail);
    SplitFront(b, c + " " + (d + " " + tail));
    SplitFront(a, b + " " + (c + " " + (d + " " + tail)));
    ConsFour(a, b, c, d, SplitSpace(tail));
  }

  lemma InstallCmdShape(p: Package)
    ensures p.InstallCmd() ==
      "pixi" + " " + ("global" + " " + ("install" + " " + (p.name + " " + JoinSpace(WithOptions(p.withPkgs)))))
  {
  }

  /**
   * Read back word by word, the install command is `pixi global install`, the
   * name, and a `--with` pair per package; with no packages it ends in an empty
   * word, from the trailing space.
   */
  lemma InstallCmdWords(p: Package)
    requires ' ' !in p.name
    requires forall i :: 0 <= i < |p.withPkgs| ==> ' ' !in p.withPkgs[i]
    ensures SplitSpace(p.InstallCmd()) ==
      ["pixi", "global", "install", p.name] + (if p.withPkgs == [] then [""] else WithWords(p.withPkgs))
  {
    InstallCmdShape(p);
    SplitFour("pixi", "global", "install", p.name, JoinSpace(WithOptions(p.withPkgs)));
    if p.withPkgs != [] {
      WithOptionsSplit(p.withPkgs);
    }
  }

  // ---------------------------------------------------------------------------
  // Filesystems.

  /**
   * One fstab line. Paths are kept as the strings they are read from; exactly
   * one of `device`, `label` and `uuid` addresses the filesystem.
   */
  datatype Filesystem = Filesystem(
    device: Option<string>, labelName: Option<string>, uuid: Option<string>,
    fstype: string, mountpoint: Option<string>, options: Option<string>,
    dump: int, fsck: int)
  {
    /** How many of the three addressing keys are set. */
    function KeyCount(): (n: nat)
      ensures n <= 3
    {
      (if device.Some? then 1 else 0) + (if labelName.Some? then 1 else 0) + (if uuid.Some? then 1 else 0)
    }

    predicate Valid() { KeyCount() == 1 }
  }

  datatype FilesystemError = NotOneAddressingKey

  /** The checked constructor: a filesystem needs exactly one of device, label and uuid. */
  function NewFilesystem(
    device: Option<string>, labelName: Option<string>, uuid: Option<string>,
    fstype: string, mountpoint: Option<string>, options: Option<string>,
    dump: int, fsck: int): (r: Result<Filesystem, FilesystemError>)
    ensures r.Ok? <==>
      || (device.Some? && labelName.None? && uuid.None?)
      || (device.None? && labelName.Some? && uuid.None?)
      || (device.None? && labelName.None? && uuid.Some?)
    ensures r.Ok? ==> r.value.Valid() && r.value == Filesystem(device, labelName, uuid, fstype, mountpoint, options, dump, fsck)
    ensures r.Err? ==> r.error == NotOneAddressingKey
  {
    var f := Filesystem(device, labelName, uuid, fstype, mountpoint, options, dump, fsck);
    if f.Valid() then Ok(f) else Err(NotOneAddressingKey)
  }

  /** An fstab entry as the fstab library reads and writes it; any field may be absent. */
  datatype FstabEntry = FstabEntry(
    device: Option<string>, dir: Option<string>, fsType: Option<string>,
    options: Option<string>, dump: Option<int>, fsck: Option<int>)

  const LabelPrefix: string := "LABEL="
  const UuidPrefix: string := "UUID="

  /** A device path that does not look like a label or uuid reference. */
  predicate PlainDevice(d: string) { !(LabelPrefix <= d) && !(UuidPrefix <= d) }

  /** `x or 0` on an optional integer. */
  function OrZero(x: Option<int>): int { if x.Some? then x.value else 0 }

  /** The filesystem an fstab entry describes; the entry must name a device and a type. */
  function FromFstabEntry(e: FstabEntry): (r: Filesystem)
    requires e.device.Some? && e.fsType.Some?
    ensures r.Valid()
    ensures LabelPrefix <= e.device.value ==>
      r.labelName == Some(e.device.value[|LabelPrefix|..]) && r.device.None? && r.uuid.None?
    ensures !(LabelPrefix <= e.device.value) && UuidPrefix <= e.device.value ==>
      r.uuid == Some(e.device.value[|UuidPrefix|..]) && r.device.None? && r.labelName.None?
    ensures PlainDevice(e.device.value) ==> r.device == e.device && r.labelName.None? && r.uuid.None?
    ensures r.fstype == e.fsType.value && r.mountpoint == e.dir && r.options == e.options
    ensures r.dump == OrZero(e.dump) && r.fsck == OrZero(e.fsck)
  {
    var d := e.device.value;
    var (device, labelName, uuid) :=
      if LabelPrefix <= d then (None, Some(d[|LabelPrefix|..]), None)
      else if UuidPrefix <= d then (None, None, Some(d[|UuidPrefix|..]))
      else (Some(d), None, None);
    Filesystem(device, labelName, uuid, e.fsType.value, e.dir, e.options, OrZero(e.dump), OrZero(e.fsck))
  }

  /**
   * The device field as written: `str(device or label or uuid)`, which drops
   * the `LABEL=` / `UUID=` prefix; an empty label is falsy and an absent uuid
   * prints as `None`.
   */
  function DeviceFieldAsWritten(f: Filesystem): string {
    if f.device.Some? then f.device.value
    else if f.labelName.Some? && f.labelName.value != "" then f.labelName.value
    else if f.uuid.Some? then f.uuid.value
    else "None"
  }

  function ToFstabEntryAsWritten(f: Filesystem): FstabEntry {
    FstabEntry(Some(DeviceFieldAsWritten(f)), f.mountpoint, Some(f.fstype), f.options, Some(f.dump), Some(f.fsck))
  }

  /** The device field with the prefix `from_fstab_entry` expects put back. */
  function DeviceField(f: Filesystem): string {
    if f.device.Some? then f.device.value
    else if f.labelName.Some? then LabelPrefix + f.labelName.value
    else if f.uuid.Some? then UuidPrefix + f.uuid.value
    else "None"
  }

  /** The fstab entry of a filesystem, with its addressing key written as fstab expects it. */
  function ToFstabEntry(f: Filesystem): FstabEntry {
    FstabEntry(Some(DeviceField(f)), f.mountpoint, Some(f.fstype), f.options, Some(f.dump), Some(f.fsck))
  }

  /** The fields other than the device are copied unchanged, by both versions. */
  lemma ToFstabEntryFields(f: Filesystem)
    ensures var e := ToFstabEntry(f);
      e.dir == f.mountpoint && e.fsType == Some(f.fstype) && e.options == f.options
      && e.dump == Some(f.dump) && e.fsck == Some(f.fsck)
    ensures ToFstabEntryAsWritten(f) == ToFstabEntry(f).(device := Some(DeviceFieldAsWritten(f)))
  {
  }

  /** A valid filesystem whose device path has no reference prefix survives writing and reading back. */
  lemma FstabRoundTrip(f: Filesystem)
    requires f.Valid()
    requires f.device.Some? ==> PlainDevice(f.device.value)
    ensures FromFstabEntry(ToFstabEntry(f)) == f
  {
    var d := DeviceField(f);
    if f.labelName.Some? && f.device.None? {
      assert LabelPrefix <= d && d[|LabelPrefix|..] == f.labelName.value;
    } else if f.uuid.Some? && f.device.None? {
      assert !(LabelPrefix <= d) by { assert d[0] != LabelPrefix[0]; }
      assert UuidPrefix <= d && d[|UuidPrefix|..] == f.uuid.value;
    }
  }

  /** A complete fstab entry survives reading and writing back. */
  lemma FstabEntryRoundTrip(e: FstabEntry)
    requires e.device.Some? && e.fsType.Some? && e.dump.Some? && e.fsck.Some?
    ensures ToFstabEntry(FromFstabEntry(e)) == e
  {
    var d := e.device.value;
    if LabelPrefix <= d {
      assert LabelPrefix + d[|LabelPrefix|..] == d;
    } else if UuidPrefix <= d {
      assert UuidPrefix + d[|UuidPrefix|..] == d;
    }
  }

  /** As written, a device-addressed filesystem still round-trips. */
  lemma FstabAsWrittenDeviceRoundTrip(f: Filesystem)
    requires f.Valid() && f.device.Some? && PlainDevice(f.device.value)
    ensures FromFstabEntry(ToFstabEntryAsWritten(f)) == f
  {
  }

  /** As written, no label- or uuid-addressed filesystem survives writing and reading back. */
  lemma FstabAsWrittenLosesReference(f: Filesystem)
    requires f.Valid() && f.device.None?
    ensures FromFstabEntry(ToFstabEntryAsWritten(f)) != f
  {
    var g := FromFstabEntry(ToFstabEntryAsWritten(f));
    var d := DeviceFieldAsWritten(f);
    if LabelPrefix <= d {
      if f.labelName.Some? {
        assert |g.labelName.value| < |f.labelName.value|;
      }
    } else if UuidPrefix <= d {
      if f.uuid.Some? {
        assert |g.uuid.value| < |f.uuid.value|;
      }
    }
  }

  // ---------------------------------------------------------------------------
  // The order of filesystems.

  /** Python's `s.split("/")`: the pieces between slashes, empty pieces kept. */
  function PathParts(s: string): (r: seq<string>)
    ensures |r| >= 1
  {
    if s == [] then [""]
    else
      var rest := PathParts(s[1..]);
      if s[0] == '/' then [""] + rest else [[s[0]] + rest[0]] + rest[1..]
  }

  /** Python's `"/".join(parts)`. */
  function JoinSlash(parts: seq<string>): string
    requires |parts| >= 1
  {
    if |parts| == 1 then parts[0] else parts[0] + "/" + JoinSlash(parts[1..])
  }

  /** Joining the parts gives the path back, so two paths with the same parts are equal. */
  lemma {:induction false} PathPartsJoin(s: string)
    ensures JoinSlash(PathParts(s)) == s
  {
    if s != [] {
      var rest := PathParts(s[1..]);
      PathPartsJoin(s[1..]);
      if s[0] == '/' {
        assert PathParts(s)[1..] == rest;
      } else {
        var r := PathParts(s);
        assert r[1..] == rest[1..];
        if |rest| > 1 {
          assert JoinSlash(rest) == rest[0] + "/" + JoinSlash(rest[1..]);
        }
      }
    }
  }

  /** `PurePath.__lt__`: the paths' parts (the string split at `/`) compared lexicographically. */
  predicate PathLess(a: string, b: string) { LexLess(StrLess, PathParts(a), PathParts(b)) }

  lemma {:induction false} PathPartsNoSlash(a: string)
    requires '/' !in a
    ensures PathParts(a) == [a]
  {
    if a != [] {
      PathPartsNoSlash(a[1..]);
      assert [a[0]] + a[1..] == a;
    }
  }

  lemma {:induction false} PathPartsSlash(a: string, b: string)
    requires '/' !in a
    ensures PathParts(a + "/" + b) == [a] + PathParts(b)
  {
    if a == [] {
      assert a + "/" + b == "/" + b && ("/" + b)[1..] == b;
    } else {
      assert (a + "/" + b)[1..] == a[1..] + "/" + b;
      PathPartsSlash(a[1..], b);
      assert [a[0]] + a[1..] == a;
    }
  }

  lemma {:induction false} PathPartsAppend(p: string, x: string)
    ensures PathParts(p + "/" + x) == PathParts(p) + PathParts(x)
  {
    if p == [] {
      assert p + "/" + x == "/" + x && ("/" + x)[1..] == x;
    } else {
      assert (p + "/" + x)[1..] == p[1..] + "/" + x;
      PathPartsAppend(p[1..], x);
    }
  }

  lemma Regroup<T>(d: seq<T>, sep: seq<T>, n: seq<T>, x: seq<T>, u: seq<T>, t: seq<T>)
    ensures d + sep + (n + x) + sep + u == (d + sep + n) + (x + sep + u)
    ensures d + sep + n + sep + t == (d + sep + n) + (sep + t)
    ensures d + sep + n + sep + t == d + sep + (n + sep + t)
    ensures d + sep + (n + x) + sep + u == d + sep + ((n + x) + sep + u)
  {
  }

  /** As strings, `dir/name<suffix>/u` comes first when the suffix starts below `/`. */
  lemma StrOrderOfPaths(dir: string, name: string, suffix: string, t: string, u: string)
    requires suffix != [] && suffix[0] < '/'
    ensures StrLess(dir + "/" + (name + suffix) + "/" + u, dir + "/" + name + "/" + t)
  {
    Regroup(dir, "/", name, suffix, u, t);
    assert StrLess(suffix + "/" + u, "/" + t);
    LexPrefix(CharLess, dir + "/" + name, suffix + "/" + u, "/" + t);
  }

  /**
   * Paths order by their parts, not as strings: under a common directory,
   * `data/home` comes before `data-old/x`, since `data` is a prefix of
   * `data-old`, although as strings `-` comes before `/`.
   */
  lemma PathOrderByParts(dir: string, name: string, suffix: string, t: string, u: string)
    requires '/' !in name && '/' !in suffix && suffix != [] && suffix[0] < '/'
    ensures PathLess(dir + "/" + name + "/" + t, dir + "/" + (name + suffix) + "/" + u)
    ensures StrLess(dir + "/" + (name + suffix) + "/" + u, dir + "/" + name + "/" + t)
  {
    StrOrderOfPaths(dir, name, suffix, t, u);
    Regroup(dir, "/", name, suffix, u, t);
    PathPartsAppend(name, t);
    PathPartsAppend(name + suffix, u);
    PathPartsNoSlash(name);
    PathPartsNoSlash(name + suffix);
    PathPartsAppend(dir, name + "/" + t);
    PathPartsAppend(dir, (name + suffix) + "/" + u);
    var one, two := PathParts(name + "/" + t), PathParts((name + suffix) + "/" + u);
    assert StrLess(name, name + suffix) by {
      assert StrLess([], suffix);
      LexPrefix(CharLess, name, [], suffix);
      assert name + [] == name;
    }
    assert one[0] == name && two[0] == name + suffix;
    assert LexLess(StrLess, one, two);
    LexPrefix(StrLess, PathParts(dir), one, two);
  }

  /** One field of the comparison tuple; an absent field sorts first. */
  datatype Atom = Absent | Parts(parts: seq<string>) | Str(s: string) | Num(n: int)

  predicate AtomLess(a: Atom, b: Atom) {
    match (a, b)
    case (Absent, Absent) => false
    case (Absent, _) => true
    case (Parts(x), Parts(y)) => LexLess(StrLess, x, y)
    case (Parts(_), Str(_)) => true
    case (Parts(_), Num(_)) => true
    case (Str(x), Str(y)) => StrLess(x, y)
    case (Str(_), Num(_)) => true
    case (Num(x), Num(y)) => x < y
    case _ => false
  }

  function OptAtom(o: Option<string>): Atom { if o.Some? then Str(o.value) else Absent }

  /** A `Path | None` field: a path compares by its parts. */
  function OptPath(o: Option<string>): Atom { if o.Some? then Parts(PathParts(o.value)) else Absent }

  /** The fields in declaration order, as the generated comparison takes them. */
  function SortKey(f: Filesystem): (k: seq<Atom>)
    ensures |k| == 8
  {
    [OptPath(f.device), OptAtom(f.labelName), OptAtom(f.uuid), Str(f.fstype),
     OptPath(f.mountpoint), OptAtom(f.options), Num(f.dump), Num(f.fsck)]
  }

  /** `a < b`: the field tuples compared lexicographically. */
  predicate FsLess(a: Filesystem, b: Filesystem) { LexLess(AtomLess, SortKey(a), SortKey(b)) }

  predicate PartsLess(a: seq<string>, b: seq<string>) { LexLess(StrLess, a, b) }

  lemma PartsLessStrictTotal()
    ensures StrictTotal(PartsLess)
  {
    StrLessStrictTotal();
    forall a: seq<string> ensures !PartsLess(a, a) { LexIrreflexive(StrLess, a); }
    forall a: seq<string>, b: seq<string>, c: seq<string> | PartsLess(a, b) && PartsLess(b, c) ensures PartsLess(a, c) {
      LexTransitive(StrLess, a, b, c);
    }
    forall a: seq<string>, b: seq<string> | a != b ensures PartsLess(a, b) || PartsLess(b, a) {
      LexConnected(StrLess, a, b);
    }
  }

  lemma AtomLessStrictTotal()
    ensures StrictTotal(AtomLess)
  {
    StrLessStrictTotal();
    PartsLessStrictTotal();
    assert forall x, y :: PartsLess(x, y) == AtomLess(Parts(x), Parts(y));
  }

  lemma OptPathInjective(a: Option<string>, b: Option<string>)
    requires OptPath(a) == OptPath(b)
    ensures a == b
  {
    if a.Some? {
      PathPartsJoin(a.value);
      PathPartsJoin(b.value);
    }
  }

  lemma SortKeyInjective(a: Filesystem, b: Filesystem)
    requires SortKey(a) == SortKey(b)
    ensures a == b
  {
    assert SortKey(a)[0] == SortKey(b)[0] && SortKey(a)[1] == SortKey(b)[1] && SortKey(a)[2] == SortKey(b)[2];
    assert SortKey(a)[4] == SortKey(b)[4] && SortKey(a)[5] == SortKey(b)[5];
    OptPathInjective(a.device, b.device);
    OptPathInjective(a.mountpoint, b.mountpoint);
  }

  /** The order is a strict total order, so `sorted` has exactly one answer. */
  lemma FsLessStrictTotal()
    ensures StrictTotal(FsLess)
  {
    AtomLessStrictTotal();
    forall a: Filesystem ensures !FsLess(a, a) { LexIrreflexive(AtomLess, SortKey(a)); }
    forall a: Filesystem, b: Filesystem, c: Filesystem | FsLess(a, b) && FsLess(b, c) ensures FsLess(a, c) {
      LexTransitive(AtomLess, SortKey(a), SortKey(b), SortKey(c));
    }
    forall a: Filesystem, b: Filesystem | a != b ensures FsLess(a, b) || FsLess(b, a) {
      if SortKey(a) == SortKey(b) { SortKeyInjective(a, b); }
      LexConnected(AtomLess, SortKey(a), SortKey(b));
    }
  }

  /** `sorted(filesystems)`: every filesystem once, in increasing order. */
  function SortedFilesystems(s: set<Filesystem>): (r: seq<Filesystem>)
    ensures |r| == |s|
    ensures forall f :: f in r <==> f in s
    ensures forall i, j :: 0 <= i < j < |r| ==> FsLess(r[i], r[j])
  {
    FsLessStrictTotal();
    SortSet(s, FsLess)
  }
}
